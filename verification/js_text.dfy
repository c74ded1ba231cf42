/** The JavaScript string operations the routes rely on: `trim`, `toLowerCase`, `includes`,
    `split`/`join`, `String(n)` for integers, and the two regular-expression replacements
    `/<[^>]*>/g` (strip HTML tags) and `/[^0-9]/g` (keep digits). Strings are sequences of
    Unicode scalar values, not UTF-16 code units. */
module JsText {
  import opened Wrappers

  // ---------------------------------------------------------------- white space and trim

  /** WhiteSpace and LineTerminator code points of ECMA-262 (sections 12.2 and 12.3): the set
      that `String.prototype.trim` and string-to-number conversion remove. */
  predicate IsSpace(c: char) {
    || c == '\t' || c == '\n' || c == '\U{000B}' || c == '\U{000C}' || c == '\r' || c == ' '
    || c == '\U{00A0}' || c == '\U{1680}' || ('\U{2000}' <= c <= '\U{200A}')
    || c == '\U{2028}' || c == '\U{2029}' || c == '\U{202F}' || c == '\U{205F}'
    || c == '\U{3000}' || c == '\U{FEFF}'
  }

  predicate AllSpace(s: string) {
    forall i :: 0 <= i < |s| ==> IsSpace(s[i])
  }

  /** Number of white-space characters at the front of `s`. */
  function LeadingSpace(s: string): (n: nat)
    ensures n <= |s|
    ensures forall j :: 0 <= j < n ==> IsSpace(s[j])
    ensures n < |s| ==> !IsSpace(s[n])
    decreases |s|
  {
    if |s| == 0 || !IsSpace(s[0]) then 0 else 1 + LeadingSpace(s[1..])
  }

  /** Number of white-space characters at the back of `s`. */
  function TrailingSpace(s: string): (n: nat)
    ensures n <= |s|
    ensures forall j :: |s| - n <= j < |s| ==> IsSpace(s[j])
    ensures n < |s| ==> !IsSpace(s[|s| - n - 1])
    decreases |s|
  {
    if |s| == 0 || !IsSpace(s[|s| - 1]) then 0 else 1 + TrailingSpace(s[..|s| - 1])
  }

  /** `s.trim()`: the infix `s[lo..hi]` left after removing the longest white-space prefix and
      the longest white-space suffix. */
  function Trim(s: string): (r: string)
    ensures LeadingSpace(s) + |r| <= |s|
    ensures r == "" || (!IsSpace(r[0]) && !IsSpace(r[|r| - 1]))
    ensures r == s[LeadingSpace(s)..LeadingSpace(s) + |r|]
  {
    var t := s[LeadingSpace(s)..];
    t[..|t| - TrailingSpace(t)]
  }

  /** `s.trim() === ""` holds exactly for strings made of white space only. */
  lemma TrimEmptyIff(s: string)
    ensures Trim(s) == "" <==> AllSpace(s)
  {
    var lo := LeadingSpace(s);
    var t := s[lo..];
    if lo < |s| {
      assert t[0] == s[lo];
      assert TrailingSpace(t) < |t|;
      assert !AllSpace(s);
    }
  }

  /** A string whose ends are not white space is its own trim. */
  lemma TrimOfTrimmed(s: string)
    requires s == "" || (!IsSpace(s[0]) && !IsSpace(s[|s| - 1]))
    ensures Trim(s) == s
  {
  }

  // ---------------------------------------------------------------- lower case

  /** `toLowerCase` on one character. Only Basic Latin and Latin-1 capitals are mapped. */
  function LowerChar(c: char): char {
    if 'A' <= c <= 'Z' || ('\U{00C0}' <= c <= '\U{00DE}' && c != '\U{00D7}') then
      (c as int + 32) as char
    else
      c
  }

  function ToLower(s: string): (r: string)
    ensures |r| == |s|
  {
    seq(|s|, i requires 0 <= i < |s| => LowerChar(s[i]))
  }

  /** Lower-casing twice is lower-casing once. */
  lemma ToLowerIdempotent(s: string)
    ensures ToLower(ToLower(s)) == ToLower(s)
  {
    forall i | 0 <= i < |s| ensures ToLower(ToLower(s))[i] == ToLower(s)[i] {
      var c := s[i];
      assert LowerChar(LowerChar(c)) == LowerChar(c);
    }
  }

  // ---------------------------------------------------------------- substring search

  predicate StartsWith(s: string, p: string) {
    |p| <= |s| && s[..|p|] == p
  }

  /** `needle` occurs in `hay` starting at index `i`. */
  predicate OccursAt(hay: string, needle: string, i: int) {
    0 <= i && i + |needle| <= |hay| && hay[i..i + |needle|] == needle
  }

  /** `hay.includes(needle)`. */
  predicate Includes(hay: string, needle: string)
    decreases |hay|
  {
    StartsWith(hay, needle) || (|hay| > 0 && Includes(hay[1..], needle))
  }

  lemma OccursShift(hay: string, needle: string, i: int)
    requires |hay| > 0 && 0 <= i
    ensures OccursAt(hay[1..], needle, i) <==> OccursAt(hay, needle, i + 1)
  {
    if 0 <= i && i + |needle| <= |hay| - 1 {
      assert hay[1..][i..i + |needle|] == hay[i + 1..i + 1 + |needle|];
    }
  }

  /** `includes` holds exactly when the needle occurs at some index. */
  lemma {:induction false} IncludesIff(hay: string, needle: string)
    ensures Includes(hay, needle) <==> exists i :: OccursAt(hay, needle, i)
    decreases |hay|
  {
    assert StartsWith(hay, needle) <==> OccursAt(hay, needle, 0);
    if |hay| > 0 {
      IncludesIff(hay[1..], needle);
      if Includes(hay[1..], needle) {
        var i :| OccursAt(hay[1..], needle, i);
        assert i >= 0;
        OccursShift(hay, needle, i);
      }
      if i :| OccursAt(hay, needle, i) {
        if i > 0 {
          OccursShift(hay, needle, i - 1);
        }
      }
    } else {
      if i :| OccursAt(hay, needle, i) {
        assert i == 0;
      }
    }
  }

  /** Every string includes itself. */
  lemma IncludesSelf(s: string)
    ensures Includes(s, s)
  {
    assert StartsWith(s, s);
  }

  /** `s.indexOf(p)`: the first index at which `p` occurs, or `None` (JavaScript's -1). */
  function IndexOf(s: string, p: string): (r: Option<nat>)
    ensures r.Some? ==> OccursAt(s, p, r.value)
    ensures r.Some? ==> forall j :: 0 <= j < r.value ==> !OccursAt(s, p, j)
    ensures r.None? ==> forall j :: !OccursAt(s, p, j)
    decreases |s|
  {
    if StartsWith(s, p) then
      assert OccursAt(s, p, 0);
      Some(0)
    else if |s| == 0 then
      None
    else
      var rest := IndexOf(s[1..], p);
      assert !OccursAt(s, p, 0);
      assert forall j :: 1 <= j ==> (OccursAt(s, p, j) <==> OccursAt(s[1..], p, j - 1)) by {
        forall j | 1 <= j ensures OccursAt(s, p, j) <==> OccursAt(s[1..], p, j - 1) {
          OccursShift(s, p, j - 1);
        }
      }
      if rest.Some? then Some(rest.value + 1) else None
  }

  /** The first index of character `c` in `s`. */
  function IndexOfChar(s: string, c: char): (r: Option<nat>)
    ensures r.Some? ==> r.value < |s| && s[r.value] == c && forall j :: 0 <= j < r.value ==> s[j] != c
    ensures r.None? ==> forall j :: 0 <= j < |s| ==> s[j] != c
    decreases |s|
  {
    if |s| == 0 then None
    else if s[0] == c then Some(0)
    else
      assert forall k :: 1 <= k < |s| ==> s[k] == s[1..][k - 1];
      match IndexOfChar(s[1..], c)
      case Some(i) => Some(i + 1)
      case None => None
  }

  // ---------------------------------------------------------------- split and join

  /** `s.split(sep)` for a non-empty separator. */
  function Split(s: string, sep: string): (parts: seq<string>)
    requires |sep| > 0
    ensures |parts| >= 1
    decreases |s|
  {
    match IndexOf(s, sep)
    case None => [s]
    case Some(i) => [s[..i]] + Split(s[i + |sep|..], sep)
  }

  /** `parts.join(sep)`. */
  function Join(parts: seq<string>, sep: string): string
    decreases |parts|
  {
    if |parts| == 0 then ""
    else if |parts| == 1 then parts[0]
    else parts[0] + sep + Join(parts[1..], sep)
  }

  /** Splitting and joining with the same separator gives back the original string. */
  lemma {:induction false} SplitJoin(s: string, sep: string)
    requires |sep| > 0
    ensures Join(Split(s, sep), sep) == s
    decreases |s|
  {
    match IndexOf(s, sep)
    case None =>
    case Some(i) =>
      var rest := Split(s[i + |sep|..], sep);
      SplitJoin(s[i + |sep|..], sep);
      var parts := [s[..i]] + rest;
      assert parts[1..] == rest;
      assert s == s[..i] + s[i..i + |sep|] + s[i + |sep|..];
  }

  /** No piece of a split contains the separator. */
  lemma {:induction false} SplitPiecesFree(s: string, sep: string)
    requires |sep| > 0
    ensures forall k :: 0 <= k < |Split(s, sep)| ==> !Includes(Split(s, sep)[k], sep)
    decreases |s|
  {
    match IndexOf(s, sep)
    case None =>
      IncludesIff(s, sep);
    case Some(i) =>
      var head := s[..i];
      IncludesIff(head, sep);
      forall j | 0 <= j && j + |sep| <= |head| ensures OccursAt(head, sep, j) ==> OccursAt(s, sep, j) {
        assert head[j..j + |sep|] == s[j..j + |sep|];
      }
      SplitPiecesFree(s[i + |sep|..], sep);
  }

  // ---------------------------------------------------------------- digits and integers

  predicate IsDigit(c: char) {
    '0' <= c <= '9'
  }

  predicate AllDigits(s: string) {
    forall i :: 0 <= i < |s| ==> IsDigit(s[i])
  }

  function DigitValue(c: char): nat
    requires IsDigit(c)
  {
    c as int - '0' as int
  }

  function DigitChar(d: nat): (c: char)
    requires d < 10
    ensures IsDigit(c) && DigitValue(c) == d
  {
    ('0' as int + d) as char
  }

  /** The value of a string of decimal digits (the empty string has value 0). */
  function DigitsValue(s: string): nat
    requires AllDigits(s)
    decreases |s|
  {
    if |s| == 0 then 0 else 10 * DigitsValue(s[..|s| - 1]) + DigitValue(s[|s| - 1])
  }

  /** `String(n)` for a non-negative integer: its shortest decimal numeral. */
  function NatToString(n: nat): (r: string)
    ensures |r| >= 1 && AllDigits(r)
    ensures DigitsValue(r) == n
    ensures r[0] == '0' <==> n == 0
    ensures n == 0 ==> r == "0"
    decreases n
  {
    if n < 10 then
      [DigitChar(n)]
    else
      var r := NatToString(n / 10) + [DigitChar(n % 10)];
      assert r[..|r| - 1] == NatToString(n / 10);
      r
  }

  /** Distinct numbers have distinct numerals. */
  lemma NatToStringInjective(m: nat, n: nat)
    requires NatToString(m) == NatToString(n)
    ensures m == n
  {
  }

  /** `String(i)` for an integer. */
  function IntToString(i: int): (r: string)
    ensures |r| >= 1
    ensures i >= 0 ==> r == NatToString(i)
    ensures i < 0 ==> r == "-" + NatToString(-i)
  {
    if i < 0 then "-" + NatToString(-i) else NatToString(i)
  }

  /** `s.replace(/[^0-9]/g, '')`: the decimal digits of `s`, in order. */
  function DigitsOnly(s: string): (r: string)
    ensures AllDigits(r)
    ensures |r| <= |s|
    decreases |s|
  {
    if |s| == 0 then ""
    else (if IsDigit(s[0]) then [s[0]] else "") + DigitsOnly(s[1..])
  }

  /** A string of digits passes through unchanged. */
  lemma {:induction false} DigitsOnlyOfDigits(s: string)
    requires AllDigits(s)
    ensures DigitsOnly(s) == s
    decreases |s|
  {
    if |s| > 0 {
      DigitsOnlyOfDigits(s[1..]);
      assert s == [s[0]] + s[1..];
    }
  }

  /** Keeping digits distributes over concatenation, so the digits keep their order. */
  lemma {:induction false} DigitsOnlyAppend(a: string, b: string)
    ensures DigitsOnly(a + b) == DigitsOnly(a) + DigitsOnly(b)
    decreases |a|
  {
    if |a| == 0 {
      assert a + b == b;
    } else {
      var head := if IsDigit(a[0]) then [a[0]] else "";
      assert (a + b)[0] == a[0];
      assert (a + b)[1..] == a[1..] + b;
      assert DigitsOnly(a + b) == head + DigitsOnly(a[1..] + b);
      DigitsOnlyAppend(a[1..], b);
      assert DigitsOnly(a) == head + DigitsOnly(a[1..]);
      assert head + (DigitsOnly(a[1..]) + DigitsOnly(b)) == (head + DigitsOnly(a[1..])) + DigitsOnly(b);
    }
  }

  /** A string without digits contributes nothing. */
  lemma {:induction false} DigitsOnlyOfNoDigits(s: string)
    requires forall i :: 0 <= i < |s| ==> !IsDigit(s[i])
    ensures DigitsOnly(s) == ""
    decreases |s|
  {
    if |s| > 0 {
      DigitsOnlyOfNoDigits(s[1..]);
    }
  }

  // ---------------------------------------------------------------- HTML tag stripping

  /** No `<` is followed, anywhere later, by a `>`: nothing left for `/<[^>]*>/` to match. */
  predicate NoTagSpan(r: string) {
    forall i, j :: 0 <= i < j < |r| && r[i] == '<' ==> r[j] != '>'
  }

  /** `s.replace(/<[^>]*>/g, '')`: scanning left to right, every `<` that has a `>` after it is
      deleted together with everything up to and including the first such `>`. */
  function StripTags(s: string): (r: string)
    ensures |r| <= |s|
    ensures NoTagSpan(r)
    ensures (forall i :: 0 <= i < |s| ==> s[i] != '<') ==> r == s
    decreases |s|
  {
    if |s| == 0 then
      ""
    else if s[0] != '<' then
      var rest := StripTags(s[1..]);
      var r := [s[0]] + rest;
      assert forall i :: 1 <= i < |r| ==> r[i] == rest[i - 1];
      r
    else
      match IndexOfChar(s[1..], '>')
      case Some(j) => StripTags(s[j + 2..])
      case None =>
        assert forall k :: 1 <= k < |s| ==> s[k] == s[1..][k - 1];
        s
  }

  /** Text with no tag span is left as it is, so stripping is idempotent. */
  lemma {:induction false} StripTagsFixpoint(s: string)
    requires NoTagSpan(s)
    ensures StripTags(s) == s
    decreases |s|
  {
    if |s| > 0 {
      if s[0] != '<' {
        assert NoTagSpan(s[1..]) by {
          forall i, j | 0 <= i < j < |s[1..]| && s[1..][i] == '<' ensures s[1..][j] != '>' {
            assert s[1..][i] == s[i + 1] && s[1..][j] == s[j + 1];
          }
        }
        StripTagsFixpoint(s[1..]);
        assert s == [s[0]] + s[1..];
      } else {
        assert forall k :: 0 <= k < |s[1..]| ==> s[1..][k] == s[k + 1] && s[k + 1] != '>';
        assert IndexOfChar(s[1..], '>').None?;
      }
    }
  }

  /** Text before the first `<` is kept as it is. */
  lemma {:induction false} StripTagsKeepsText(a: string, b: string)
    requires forall i :: 0 <= i < |a| ==> a[i] != '<'
    ensures StripTags(a + b) == a + StripTags(b)
    decreases |a|
  {
    if |a| > 0 {
      var x := StripTags(b);
      HeadSplit(a, b);
      HeadSplit(a, x);
      StripTagsCons(a[0], a[1..] + b);
      StripTagsKeepsText(a[1..], b);
    } else {
      assert a + b == b;
    }
  }

  lemma HeadSplit<T>(a: seq<T>, b: seq<T>)
    requires |a| > 0
    ensures a + b == [a[0]] + (a[1..] + b)
  {
    assert a == [a[0]] + a[1..];
  }

  /** One character other than `<` is kept in front of the stripped rest. */
  lemma StripTagsCons(c: char, rest: string)
    requires c != '<'
    ensures StripTags([c] + rest) == [c] + StripTags(rest)
  {
    assert ([c] + rest)[1..] == rest;
  }

  /** A `<`, then text without `>`, then `>` is deleted, and stripping goes on after it. */
  lemma StripTagsDropsTag(t: string, b: string)
    requires forall i :: 0 <= i < |t| ==> t[i] != '>'
    ensures StripTags(['<'] + t + ['>'] + b) == StripTags(b)
  {
    var s := ['<'] + t + ['>'] + b;
    assert s[1..] == t + ['>'] + b;
    assert s[1..][|t|] == '>';
    assert forall k :: 0 <= k < |t| ==> s[1..][k] == t[k];
    assert IndexOfChar(s[1..], '>') == Some(|t|);
    assert s[|t| + 2..] == b;
  }

  /** Stripping keeps the text outside the tag spans and drops the spans: the text before a tag
      survives, the tag does not, and the rest is stripped in turn. */
  lemma StripTagsKeepsRest(a: string, t: string, b: string)
    requires forall i :: 0 <= i < |a| ==> a[i] != '<'
    requires forall i :: 0 <= i < |t| ==> t[i] != '>'
    ensures StripTags(a + ['<'] + t + ['>'] + b) == a + StripTags(b)
  {
    assert a + ['<'] + t + ['>'] + b == a + (['<'] + t + ['>'] + b);
    StripTagsKeepsText(a, ['<'] + t + ['>'] + b);
    StripTagsDropsTag(t, b);
  }

  lemma StripTagsIdempotent(s: string)
    ensures StripTags(StripTags(s)) == StripTags(s)
  {
    StripTagsFixpoint(StripTags(s));
  }

  /** `s.substring(0, n)`. */
  function Prefix(s: string, n: nat): (r: string)
    ensures |r| == if |s| <= n then |s| else n
    ensures StartsWith(s, r)
  {
    if |s| <= n then s else s[..n]
  }
}
