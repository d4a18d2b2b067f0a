/**
 * Ordinal (culture-free) versions of the .NET string operations the core
 * uses: StartsWith, Contains, ToLower on ASCII, IsNullOrWhiteSpace,
 * String.Join, Trim(char) and Split(char).
 */
module Strings {
  import opened Wrappers

  /** String.StartsWith(string) with ordinal comparison: character by character. */
  predicate StartsWith(s: string, prefix: string)
    ensures StartsWith(s, prefix) <==> |prefix| <= |s| && forall i :: 0 <= i < |prefix| ==> s[i] == prefix[i]
    ensures StartsWith(s, prefix) ==> s == prefix + s[|prefix|..]
  {
    |prefix| <= |s| && s[..|prefix|] == prefix
  }

  predicate EndsWith(s: string, suffix: string) {
    |suffix| <= |s| && s[|s| - |suffix|..] == suffix
  }

  /** `sub` occurs in `s` starting at index `i`. */
  ghost predicate OccursAt(s: string, sub: string, i: int) {
    0 <= i && i + |sub| <= |s| && s[i..i + |sub|] == sub
  }

  /** String.Contains(string) with ordinal comparison. */
  function Contains(s: string, sub: string): bool
    decreases |s|
  {
    if |sub| > |s| then false
    else if s[..|sub|] == sub then true
    else Contains(s[1..], sub)
  }

  /** Contains answers exactly the question "does `sub` occur somewhere in `s`". */
  lemma {:induction false} ContainsIff(s: string, sub: string)
    ensures Contains(s, sub) <==> exists i :: OccursAt(s, sub, i)
    decreases |s|
  {
    if |sub| > |s| {
    } else if s[..|sub|] == sub {
      assert OccursAt(s, sub, 0);
    } else {
      ContainsIff(s[1..], sub);
      if Contains(s[1..], sub) {
        var i :| OccursAt(s[1..], sub, i);
        assert s[i + 1..i + 1 + |sub|] == s[1..][i..i + |sub|];
        assert OccursAt(s, sub, i + 1);
      } else {
        forall i | OccursAt(s, sub, i) ensures false {
          assert i != 0;
          assert s[1..][i - 1..i - 1 + |sub|] == s[i..i + |sub|];
          assert OccursAt(s[1..], sub, i - 1);
        }
      }
    }
  }

  /** Regrouping a concatenation; stated once so that the long appends below need not rediscover it. */
  lemma ConcatAssoc(a: string, b: string, c: string)
    ensures (a + b) + c == a + (b + c)
  {
  }

  /** A text occurs in any text that extends it on both sides. */
  lemma ContainsInfix(a: string, sub: string, b: string)
    ensures Contains(a + sub + b, sub)
  {
    ContainsIff(a + sub + b, sub);
    assert (a + sub + b)[|a|..|a| + |sub|] == sub;
    assert OccursAt(a + sub + b, sub, |a|);
  }

  lemma EndsWithItself(s: string)
    ensures EndsWith(s, s)
  {
  }

  lemma StartsWithConcat(a: string, b: string)
    ensures StartsWith(a + b, a)
  {
    assert (a + b)[..|a|] == a;
  }

  /** A text that ends with `b` ends with some `c` no longer than `b` exactly when `b` itself does. */
  lemma EndsWithAppended(a: string, b: string, c: string)
    requires |c| <= |b|
    ensures EndsWith(a + b, c) <==> EndsWith(b, c)
  {
    assert (a + b)[|a + b| - |c|..] == b[|b| - |c|..];
  }

  /** If a text ending with `b` ends with a longer `c`, then `c` ends with `b`. */
  lemma EndsWithLonger(a: string, b: string, c: string)
    requires |b| <= |c|
    ensures EndsWith(a + b, c) ==> EndsWith(c, b)
  {
    if EndsWith(a + b, c) {
      var t := a + b;
      assert c[|c| - |b|..] == t[|t| - |c|..][|c| - |b|..] == t[|t| - |b|..] == b;
    }
  }

  /** Char.ToLower restricted to ASCII: 'A'..'Z' map to 'a'..'z'. */
  function LowerChar(c: char): char {
    if 'A' <= c <= 'Z' then (c as int + 32) as char else c
  }

  /** String.ToLower, on the ASCII letters only. */
  function ToLower(s: string): (r: string)
    ensures |r| == |s|
  {
    seq(|s|, i requires 0 <= i < |s| => LowerChar(s[i]))
  }

  /** Lower-casing leaves no ASCII capital behind, and doing it twice changes nothing. */
  lemma ToLowerNormalises(s: string)
    ensures forall i :: 0 <= i < |s| ==> !('A' <= ToLower(s)[i] <= 'Z')
    ensures ToLower(ToLower(s)) == ToLower(s)
  {
  }

  /** Char.IsWhiteSpace: the Unicode White_Space characters. */
  predicate IsWhiteSpace(c: char) {
    || c == ' '
    || '\t' <= c <= '\r'
    || c == '\U{0085}' || c == '\U{00A0}' || c == '\U{1680}'
    || '\U{2000}' <= c <= '\U{200A}'
    || c == '\U{2028}' || c == '\U{2029}' || c == '\U{202F}'
    || c == '\U{205F}' || c == '\U{3000}'
  }

  /** String.IsNullOrWhiteSpace: null, empty, or white space only. */
  predicate IsNullOrWhiteSpace(s: Option<string>)
    ensures s.None? ==> IsNullOrWhiteSpace(s)
    ensures s == Some("") ==> IsNullOrWhiteSpace(s)
    ensures s.Some? ==> (IsNullOrWhiteSpace(s) <==> forall c :: c in s.value ==> IsWhiteSpace(c))
  {
    s.None? || forall i :: 0 <= i < |s.value| ==> IsWhiteSpace(s.value[i])
  }

  /**
   * String.Join(sep, items): nothing for no items, the item itself for
   * one, and two items with the separator between them.
   */
  function Join(sep: string, items: seq<string>): (r: string)
    ensures |items| == 0 ==> r == ""
    ensures |items| == 1 ==> r == items[0]
    ensures |items| == 2 ==> r == items[0] + sep + items[1]
    decreases |items|
  {
    if |items| == 0 then ""
    else if |items| == 1 then items[0]
    else
      assert |items| == 2 ==> items[1..] == [items[1]];
      items[0] + sep + Join(sep, items[1..])
  }

  /** A joined text starts with the first item and ends with the last. */
  lemma {:induction false} JoinEnds(sep: string, items: seq<string>)
    requires |items| > 0
    ensures StartsWith(Join(sep, items), items[0])
    ensures EndsWith(Join(sep, items), items[|items| - 1])
    decreases |items|
  {
    if |items| > 1 {
      var first, rest, last := items[0], Join(sep, items[1..]), items[|items| - 1];
      JoinEnds(sep, items[1..]);
      assert items[1..][|items| - 2] == last;
      StartsWithConcat(first, sep + rest);
      ConcatAssoc(first, sep, rest);
      EndsWithAppended(first + sep, rest, last);
    }
  }

  /** Joining one more item at the end adds the separator and that item. */
  lemma {:induction false} JoinSnoc(sep: string, items: seq<string>, last: string)
    requires |items| > 0
    ensures Join(sep, items + [last]) == Join(sep, items) + sep + last
    decreases |items|
  {
    if |items| == 1 {
      assert items + [last] == [items[0], last];
      assert [items[0], last][1..] == [last];
    } else {
      assert (items + [last])[1..] == items[1..] + [last];
      JoinSnoc(sep, items[1..], last);
    }
  }

  /** Number of occurrences of `c` in `s`. */
  function Count(s: string, c: char): nat {
    if |s| == 0 then 0 else (if s[0] == c then 1 else 0) + Count(s[1..], c)
  }

  /**
   * String.Split(c): every piece between separators, empty ones included,
   * so a text with k separators gives k + 1 pieces, none containing `c`,
   * and joining them back with `c` gives the text again.
   */
  function Split(s: string, c: char): (parts: seq<string>)
    ensures |parts| == Count(s, c) + 1
    ensures forall k :: 0 <= k < |parts| ==> c !in parts[k]
    ensures Join([c], parts) == s
    decreases |s|
  {
    if |s| == 0 then [""]
    else
      var rest := Split(s[1..], c);
      if s[0] == c then
        assert Join([c], [""] + rest) == [c] + Join([c], rest) by {
          assert ([""] + rest)[1..] == rest;
        }
        assert s == [c] + s[1..];
        [""] + rest
      else
        var first := [s[0]] + rest[0];
        assert Join([c], [first] + rest[1..]) == [s[0]] + Join([c], rest) by {
          assert ([first] + rest[1..])[1..] == rest[1..];
        }
        assert s == [s[0]] + s[1..];
        [first] + rest[1..]
  }

  /** The piece after the last `c`: String.Split(c).Last(). */
  function AfterLast(s: string, c: char): string {
    var parts := Split(s, c);
    parts[|parts| - 1]
  }

  /** The piece after the last separator is a separator-free suffix of the text, whole when there is no separator. */
  lemma AfterLastIsSuffix(s: string, c: char)
    ensures c !in AfterLast(s, c)
    ensures EndsWith(s, AfterLast(s, c))
    ensures AfterLast(s, c) == s || s[|s| - |AfterLast(s, c)| - 1] == c
  {
    var parts := Split(s, c);
    var n := |parts|;
    if n > 1 {
      assert parts == parts[..n - 1] + [parts[n - 1]];
      JoinSnoc([c], parts[..n - 1], parts[n - 1]);
    } else {
      assert parts == [parts[0]];
    }
  }

  /** Number of leading `c` characters of `s`. */
  function LeadingCount(s: string, c: char): (k: nat)
    ensures k <= |s|
    ensures forall i :: 0 <= i < k ==> s[i] == c
    ensures k < |s| ==> s[k] != c
    decreases |s|
  {
    if |s| > 0 && s[0] == c then 1 + LeadingCount(s[1..], c) else 0
  }

  /** Number of trailing `c` characters of `s`. */
  function TrailingCount(s: string, c: char): (k: nat)
    ensures k <= |s|
    ensures forall i :: |s| - k <= i < |s| ==> s[i] == c
    ensures k < |s| ==> s[|s| - 1 - k] != c
    decreases |s|
  {
    if |s| > 0 && s[|s| - 1] == c then 1 + TrailingCount(s[..|s| - 1], c) else 0
  }

  /** String.Trim(c): remove every leading and trailing `c`. */
  function Trim(s: string, c: char): string {
    var start := LeadingCount(s, c);
    if start == |s| then "" else s[start..|s| - TrailingCount(s, c)]
  }

  /**
   * Trim(s, c) is what is left once the runs of `c` at both ends are cut
   * off: an infix of `s`, not starting or ending with `c`, with only `c`
   * before and after it.
   */
  lemma TrimCutsBothEnds(s: string, c: char)
    ensures var t := Trim(s, c);
      exists i, j :: 0 <= i <= j <= |s| && t == s[i..j]
        && (forall k :: 0 <= k < i ==> s[k] == c)
        && (forall k :: j <= k < |s| ==> s[k] == c)
        && (|t| > 0 ==> t[0] != c && t[|t| - 1] != c)
  {
    var start := LeadingCount(s, c);
    if start == |s| {
      assert s[0..0] == "";
    } else {
      var tail := TrailingCount(s, c);
      assert s[|s| - 1 - tail] != c;
      assert |s| - tail > start;
      var t := s[start..|s| - tail];
      assert t[0] == s[start];
      assert t[|t| - 1] == s[|s| - tail - 1];
    }
  }
}
