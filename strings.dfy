/** String helpers with the JavaScript meaning the gateway relies on:
    `split` on one character, `startsWith`, `replace` of the first occurrence
    of a plain-string pattern, and decimal rendering of integers. */
module Strings {

  import opened Wrappers

  /** Index of the first `c` in `s`, or `|s|` when there is none. */
  function IndexOf(s: string, c: char): (i: nat)
    ensures i <= |s|
    ensures i < |s| ==> s[i] == c
    ensures forall j :: 0 <= j < i ==> s[j] != c
  {
    if s == [] then 0
    else if s[0] == c then 0
    else 1 + IndexOf(s[1..], c)
  }

  /** `s.split(c)` for a one-character separator: the pieces between the
      separators, always at least one (the empty string splits into [""]). */
  function Split(s: string, c: char): (parts: seq<string>)
    ensures |parts| >= 1
    decreases |s|
  {
    var i := IndexOf(s, c);
    if i == |s| then [s] else [s[..i]] + Split(s[i + 1..], c)
  }

  /** The separator never occurs inside a piece, and the pieces joined back
      with the separator give the original string. */
  lemma {:induction false} SplitJoin(s: string, c: char)
    ensures Join(Split(s, c), [c]) == s
    ensures forall k :: 0 <= k < |Split(s, c)| ==> c !in Split(s, c)[k]
    decreases |s|
  {
    var i := IndexOf(s, c);
    if i < |s| {
      var head, rest := s[..i], s[i + 1..];
      SplitJoin(rest, c);
      var parts := Split(rest, c);
      SplitFirst(s, c);
      JoinCons(head, parts, [c]);
      forall k | 0 <= k < |Split(s, c)| ensures c !in Split(s, c)[k] {
        if k > 0 {
          assert Split(s, c)[k] == parts[k - 1];
        }
      }
    }
  }

  /** A string with a separator is its first piece, the separator and the
      rest, and splits accordingly. */
  lemma SplitFirst(s: string, c: char)
    requires IndexOf(s, c) < |s|
    ensures var i := IndexOf(s, c);
      && s == s[..i] + [c] + s[i + 1..]
      && Split(s, c) == [s[..i]] + Split(s[i + 1..], c)
      && c !in s[..i]
  {
    var i := IndexOf(s, c);
    SeqAround(s, i);
  }

  /** A string is what comes before a position, the character there, and
      what follows. */
  lemma SeqAround(s: string, i: nat)
    requires i < |s|
    ensures s == s[..i] + [s[i]] + s[i + 1..]
  {
    assert s[i..] == [s[i]] + s[i + 1..];
    assert s == s[..i] + s[i..];
  }

  /** Splitting `a + [c] + b` where `a` holds no separator yields `a` first
      and then the pieces of `b`. */
  lemma SplitAt(a: string, c: char, b: string)
    requires c !in a
    ensures Split(a + [c] + b, c) == [a] + Split(b, c)
  {
    var s := a + [c] + b;
    var i := IndexOf(s, c);
    assert forall j :: 0 <= j < |a| ==> s[j] == a[j];
    assert s[|a|] == c;
    assert i == |a|;
    assert s[..i] == a && s[i + 1..] == b;
  }

  /** A leading separator and two separator-free pieces split off as
      "", `a` and `b`. */
  lemma SplitPrefixPieces(a: string, b: string, c: char, rest: string)
    requires c !in a && c !in b
    ensures var parts := Split([c] + a + [c] + b + [c] + rest, c);
      |parts| >= 3 && parts[0] == "" && parts[1] == a && parts[2] == b
  {
    var s3 := b + [c] + rest;
    var s2 := a + [c] + s3;
    ConcatSix([c], a, [c], b, [c], rest);
    SplitAt(b, c, rest);
    SplitAt(a, c, s3);
    SplitLeadingSep(s2, c);
  }

  /** Two separator-free pieces around a separator are the first two
      pieces, whatever follows a further separator. */
  lemma SplitPieces(a: string, b: string, c: char, rest: string)
    requires c !in a && c !in b
    ensures Split(a + [c] + b, c) == [a, b]
    ensures var parts := Split(a + [c] + b + [c] + rest, c);
      |parts| >= 2 && parts[0] == a && parts[1] == b
  {
    SplitAt(a, c, b);
    SplitNone(b, c);
    ConcatAssoc(a + [c], b, [c]);
    ConcatAssoc(a + [c], b + [c], rest);
    SplitAt(a, c, b + [c] + rest);
    SplitAt(b, c, rest);
  }

  /** A leading separator splits off an empty first piece. */
  lemma SplitLeadingSep(s: string, c: char)
    ensures Split([c] + s, c) == [""] + Split(s, c)
  {
    assert ([c] + s)[1..] == s;
  }

  lemma ConcatAssoc(x: string, y: string, z: string)
    ensures x + (y + z) == x + y + z
  {
  }

  /** Concatenation regrouped to the right. */
  lemma PiecesAssoc(x: seq<string>, y: seq<string>, z: seq<string>)
    ensures x + y + z == x + (y + z)
  {
  }

  lemma ConcatFive(p: string, a: string, q: string, b: string, r: string)
    ensures p + a + q + b + r == p + a + (q + b + r)
  {
  }

  lemma ConcatSix(p: string, a: string, q: string, b: string, r: string, rest: string)
    ensures p + a + q + b + r + rest == p + (a + q + (b + r + rest))
  {
  }

  /** A string free of the separator splits into itself alone. */
  lemma SplitNone(a: string, c: char)
    requires c !in a
    ensures Split(a, c) == [a]
  {
  }

  /** The first separator is where IndexOf says it is. */
  lemma IndexOfUnique(s: string, c: char, i: nat)
    requires i <= |s| && (i < |s| ==> s[i] == c)
    requires forall j :: 0 <= j < i ==> s[j] != c
    ensures IndexOf(s, c) == i
  {
  }

  /** The first piece is everything before the first separator. */
  lemma SplitHead(s: string, c: char)
    ensures Split(s, c)[0] == s[..IndexOf(s, c)]
  {
  }

  /** Splitting at an inserted separator splits each side on its own. */
  lemma {:induction false} SplitConcat(a: string, c: char, b: string)
    ensures Split(a + [c] + b, c) == Split(a, c) + Split(b, c)
    decreases |a|
  {
    var i := IndexOf(a, c);
    if i == |a| {
      SplitAt(a, c, b);
    } else {
      var head, tail := a[..i], a[i + 1..];
      SplitFirst(a, c);
      ConcatFive(head, [c], tail, [c], b);
      SplitAt(head, c, tail + [c] + b);
      SplitConcat(tail, c, b);
      PiecesAssoc([head], Split(tail, c), Split(b, c));
    }
  }

  /** A last piece without separators is split off as the last element. */
  lemma SplitSnoc(a: string, c: char, b: string)
    requires c !in b
    ensures Split(a + [c] + b, c) == Split(a, c) + [b]
  {
    SplitConcat(a, c, b);
    SplitNone(b, c);
  }

  /** A string ending in the separator splits with an empty last piece. */
  lemma SplitTrailing(s: string, c: char)
    requires |s| > 0 && s[|s| - 1] == c
    ensures Split(s, c)[|Split(s, c)| - 1] == ""
  {
    assert s == s[..|s| - 1] + [c] + "";
    SplitSnoc(s[..|s| - 1], c, "");
  }

  /** A string whose first piece is non-empty does not start with the separator. */
  lemma SplitLeading(s: string, c: char)
    requires Split(s, c)[0] != ""
    ensures |s| > 0 && s[0] != c
  {
    SplitHead(s, c);
  }

  /** `s` with every `c` removed, the rest in order. */
  function Without(s: string, c: char): string
    decreases |s|
  {
    if s == [] then [] else (if s[0] == c then [] else [s[0]]) + Without(s[1..], c)
  }

  lemma {:induction false} WithoutAppend(a: string, b: string, c: char)
    ensures Without(a + b, c) == Without(a, c) + Without(b, c)
    decreases |a|
  {
    if a == [] {
      assert a + b == b;
    } else {
      assert (a + b)[0] == a[0];
      assert (a + b)[1..] == a[1..] + b;
      WithoutAppend(a[1..], b, c);
    }
  }

  /** A string free of `c` loses nothing. */
  lemma {:induction false} WithoutNone(s: string, c: char)
    requires c !in s
    ensures Without(s, c) == s
    decreases |s|
  {
    if s != [] {
      WithoutNone(s[1..], c);
    }
  }

  /** Joining a head onto a non-empty tail puts the separator between. */
  lemma JoinCons(x: string, ys: seq<string>, sep: string)
    requires ys != []
    ensures Join([x] + ys, sep) == x + sep + Join(ys, sep)
  {
    assert ([x] + ys)[1..] == ys;
  }

  /** Removing `c` around one separator keeps the separator-free head. */
  lemma WithoutAround(x: string, c: char, rest: string)
    requires c !in x
    ensures Without(x + [c] + rest, c) == x + Without(rest, c)
  {
    ConcatAssoc(x, [c], rest);
    WithoutAppend(x, [c] + rest, c);
    WithoutNone(x, c);
    WithoutLeading(c, rest);
  }

  /** A leading `c` is removed. */
  lemma WithoutLeading(c: char, rest: string)
    ensures Without([c] + rest, c) == Without(rest, c)
  {
    assert ([c] + rest)[1..] == rest;
  }

  /** One step of `SplitJoinEmpty`: the piece before the first separator
      is kept and the separator dropped. */
  lemma SplitJoinEmptyStep(x: string, c: char, rest: string)
    requires c !in x
    requires Join(Split(rest, c), "") == Without(rest, c)
    ensures Join(Split(x + [c] + rest, c), "") == Without(x + [c] + rest, c)
  {
    var parts := Split(rest, c);
    SplitAt(x, c, rest);
    JoinCons(x, parts, "");
    assert x + "" == x;
    assert Join(Split(x + [c] + rest, c), "") == x + Join(parts, "");
    WithoutAround(x, c, rest);
  }

  /** `s.split(c).join("")` removes every `c` and keeps everything else. */
  lemma {:induction false} SplitJoinEmpty(s: string, c: char)
    ensures Join(Split(s, c), "") == Without(s, c)
    decreases |s|
  {
    var i := IndexOf(s, c);
    if i == |s| {
      WithoutNone(s, c);
    } else {
      SplitJoinEmpty(s[i + 1..], c);
      SeqAround(s, i);
      SplitJoinEmptyStep(s[..i], c, s[i + 1..]);
    }
  }

  /** `parts.join(sep)`. */
  function Join(parts: seq<string>, sep: string): string
  {
    if parts == [] then ""
    else if |parts| == 1 then parts[0]
    else parts[0] + sep + Join(parts[1..], sep)
  }

  /** Joining one more piece appends the separator and the piece. */
  lemma {:induction false} JoinSnoc(parts: seq<string>, sep: string, x: string)
    requires parts != []
    ensures Join(parts + [x], sep) == Join(parts, sep) + sep + x
    decreases |parts|
  {
    if |parts| > 1 {
      assert (parts + [x])[1..] == parts[1..] + [x];
      JoinSnoc(parts[1..], sep, x);
    } else {
      assert (parts + [x])[1..] == [x];
    }
  }

  /** Splitting three joined pieces, the first two free of the separator,
      gives back those two and then the pieces of the third. */
  lemma SplitJoinThree(a: string, b: string, c: string, sep: char)
    requires sep !in a && sep !in b
    ensures Split(Join([a, b, c], [sep]), sep) == [a] + ([b] + Split(c, sep))
  {
    JoinThree(a, b, c, [sep]);
    ConcatAssoc(a + [sep], b + [sep], c);
    assert Join([a, b, c], [sep]) == a + [sep] + (b + [sep] + c);
    SplitAt(a, sep, b + [sep] + c);
    SplitAt(b, sep, c);
  }

  /** Three separator-free pieces joined by the separator split back into
      those pieces. */
  lemma SplitThree(a: string, b: string, c: string, sep: char)
    requires sep !in a && sep !in b && sep !in c
    ensures Split(a + [sep] + b + [sep] + c, sep) == [a, b, c]
  {
    var rest := b + [sep] + c;
    ConcatFive(a, [sep], b, [sep], c);
    SplitAt(a, sep, rest);
    SplitAt(b, sep, c);
    SplitNone(c, sep);
  }

  /** Three pieces joined. */
  lemma JoinThree(a: string, b: string, c: string, sep: string)
    ensures Join([a, b, c], sep) == a + sep + b + sep + c
  {
    assert [a, b, c][1..] == [b, c];
    assert [b, c][1..] == [c];
    assert Join([c], sep) == c;
    assert Join([b, c], sep) == b + sep + c;
    assert Join([a, b, c], sep) == a + sep + (b + sep + c);
  }

  predicate StartsWith(s: string, prefix: string)
  {
    |prefix| <= |s| && s[..|prefix|] == prefix
  }

  predicate OccursAt(s: string, pat: string, i: nat)
  {
    i + |pat| <= |s| && s[i..i + |pat|] == pat
  }

  /** The first position at which `pat` occurs in `s`, searching from `from`. */
  function FindFrom(s: string, pat: string, from: nat): (r: Option<nat>)
    ensures r.Some? ==> from <= r.value && OccursAt(s, pat, r.value)
    ensures r.Some? ==> forall j :: from <= j < r.value ==> !OccursAt(s, pat, j)
    ensures r.None? ==> forall j :: from <= j ==> !OccursAt(s, pat, j)
    decreases |s| + 1 - from
  {
    if from + |pat| > |s| then None
    else if OccursAt(s, pat, from) then Some(from)
    else FindFrom(s, pat, from + 1)
  }

  /** `s.replace(pat, "")` with a string pattern: only the first occurrence
      is removed; an empty pattern occurs at position 0 and removes nothing. */
  function RemoveFirst(s: string, pat: string): (r: string)
    ensures FindFrom(s, pat, 0).None? ==> r == s
    ensures FindFrom(s, pat, 0).Some? ==> |r| == |s| - |pat|
  {
    match FindFrom(s, pat, 0)
    case None => s
    case Some(i) => s[..i] + s[i + |pat|..]
  }

  /** Removing a pattern that is a prefix of the string drops exactly that prefix. */
  lemma RemoveFirstPrefix(pat: string, rest: string)
    ensures RemoveFirst(pat + rest, pat) == rest
  {
    assert OccursAt(pat + rest, pat, 0) by {
      assert (pat + rest)[0..|pat|] == pat;
    }
  }

  /** `s.replace(/^\//, "")`: one leading slash is removed. */
  function StripLeadingSlash(s: string): (r: string)
    ensures |s| > 0 && s[0] == '/' ==> r == s[1..]
    ensures !(|s| > 0 && s[0] == '/') ==> r == s
  {
    if |s| > 0 && s[0] == '/' then s[1..] else s
  }

  function DigitChar(d: nat): char
    requires d < 10
  {
    "0123456789"[d]
  }

  /** Decimal rendering of a natural number, as `${n}` produces it. */
  function NatToString(n: nat): (r: string)
    ensures |r| >= 1
    ensures forall k :: 0 <= k < |r| ==> '0' <= r[k] <= '9'
    decreases n
  {
    if n < 10 then [DigitChar(n)]
    else NatToString(n / 10) + [DigitChar(n % 10)]
  }

  /** Decimal rendering of an integer, with a leading minus for negatives. */
  function IntToString(i: int): string
  {
    if i < 0 then "-" + NatToString(-i) else NatToString(i)
  }

  predicate IsDigit(c: char)
  {
    '0' <= c <= '9'
  }

  function DigitValue(c: char): nat
    requires IsDigit(c)
  {
    (c as int) - ('0' as int)
  }

  /** The value of a run of decimal digits. */
  function DigitsValue(s: string): nat
    requires forall k :: 0 <= k < |s| ==> IsDigit(s[k])
    decreases |s|
  {
    if s == [] then 0
    else DigitsValue(s[..|s| - 1]) * 10 + DigitValue(s[|s| - 1])
  }

  /** Reading back what NatToString wrote gives the number. */
  lemma {:induction false} DigitsValueOfNatToString(n: nat)
    ensures DigitsValue(NatToString(n)) == n
    decreases n
  {
    if n >= 10 {
      var s := NatToString(n);
      DigitsValueOfNatToString(n / 10);
      assert s[..|s| - 1] == NatToString(n / 10);
      DigitValueOfChar(n % 10);
      assert DigitsValue(s) == DigitsValue(NatToString(n / 10)) * 10 + DigitValue(DigitChar(n % 10));
    } else {
      DigitValueOfChar(n);
    }
  }

  /** A digit character has the digit's value. */
  lemma DigitValueOfChar(d: nat)
    requires d < 10
    ensures IsDigit(DigitChar(d)) && DigitValue(DigitChar(d)) == d
  {
    var digits := "0123456789";
    assert digits[0] == '0' && digits[1] == '1' && digits[2] == '2' && digits[3] == '3' && digits[4] == '4';
    assert digits[5] == '5' && digits[6] == '6' && digits[7] == '7' && digits[8] == '8' && digits[9] == '9';
  }
}
