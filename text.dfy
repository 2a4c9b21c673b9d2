/**
 * The string operations the spiders use, restricted to ASCII: upper-casing,
 * the character classes of `isalpha`/`isnumeric`, `strip`, joining, and the
 * few regular expressions the adapters search with.
 */
module Text {
  import opened Wrappers

  predicate IsLower(c: char) { 'a' <= c <= 'z' }
  predicate IsUpper(c: char) { 'A' <= c <= 'Z' }
  predicate IsAlpha(c: char) { IsLower(c) || IsUpper(c) }
  predicate IsDigit(c: char) { '0' <= c <= '9' }

  /** `str.isnumeric()`: non-empty and every character a digit. */
  predicate IsNumeric(s: string) {
    |s| > 0 && forall i :: 0 <= i < |s| ==> IsDigit(s[i])
  }

  /** The characters `str.strip()` removes (the ASCII ones). */
  predicate IsSpace(c: char) {
    c == ' ' || 9 <= c as int <= 13 || 28 <= c as int <= 31
  }

  function UpperChar(c: char): char {
    if IsLower(c) then (c as int - 'a' as int + 'A' as int) as char else c
  }

  /** `str.upper()` on ASCII text. */
  function Upper(s: string): string {
    seq(|s|, i requires 0 <= i < |s| => UpperChar(s[i]))
  }

  predicate StartsWith(s: string, prefix: string) {
    |prefix| <= |s| && s[..|prefix|] == prefix
  }

  /** `s[:-1]`: everything but the last character ("" stays ""). */
  function DropLast(s: string): string {
    if s == [] then [] else s[..|s| - 1]
  }

  /** `s[-1]` as a one-character string, for a non-empty `s`. */
  function Last(s: string): string
    requires s != []
  {
    s[|s| - 1..]
  }

  /** `s[2:]` ("" when `s` is shorter). */
  function DropTwo(s: string): string {
    if |s| < 2 then [] else s[2..]
  }

  function Concat(parts: seq<string>): string {
    if parts == [] then [] else Concat(parts[..|parts| - 1]) + parts[|parts| - 1]
  }

  /** `sep.join(items)`. */
  function Join(items: seq<string>, sep: string): string {
    if |items| == 0 then []
    else if |items| == 1 then items[0]
    else Join(items[..|items| - 1], sep) + sep + items[|items| - 1]
  }

  /** The items, each followed by one space: what appending `item + ' '` in a loop builds. */
  function Spaced(items: seq<string>): string {
    if items == [] then [] else Spaced(items[..|items| - 1]) + items[|items| - 1] + " "
  }

  /** Items that are non-empty and have no space at either end. */
  predicate Trimmed(items: seq<string>) {
    forall k :: 0 <= k < |items| ==> items[k] != [] && items[k][0] != ' ' && items[k][|items[k]| - 1] != ' '
  }

  lemma {:induction false} SpacedIsJoinPlusSpace(items: seq<string>)
    requires items != []
    ensures Spaced(items) == Join(items, " ") + " "
  {
    if |items| > 1 {
      var init := items[..|items| - 1];
      SpacedIsJoinPlusSpace(init);
    }
  }

  /** A join of trimmed items starts with the first item's first character and ends with the last item's last. */
  lemma {:induction false} JoinEnds(items: seq<string>, sep: string)
    requires items != [] && Trimmed(items)
    ensures var j := Join(items, sep);
      j != [] && j[0] == items[0][0] && j[|j| - 1] == items[|items| - 1][|items[|items| - 1]| - 1]
  {
    if |items| > 1 {
      var init := items[..|items| - 1];
      assert Trimmed(init);
      JoinEnds(init, sep);
    }
  }

  /**
   * Appending each trimmed item and a space, then stripping spaces from both
   * ends, joins the items with single spaces.
   */
  lemma StripSpaced(items: seq<string>)
    requires Trimmed(items)
    ensures StripChar(Spaced(items), ' ') == Join(items, " ")
  {
    if items != [] {
      var j := Join(items, " ");
      SpacedIsJoinPlusSpace(items);
      JoinEnds(items, " ");
      assert (j + " ")[..|j|] == j;
      assert TrimCharEnd(j + " ", ' ') == TrimCharEnd(j, ' ') == j;
    }
  }

  /** Leading whitespace removed. */
  function TrimStart(s: string): (r: string)
    ensures r == [] || !IsSpace(r[0])
    ensures |r| <= |s| && r == s[|s| - |r|..]
  {
    if s != [] && IsSpace(s[0]) then TrimStart(s[1..]) else s
  }

  /** Trailing whitespace removed. */
  function TrimEnd(s: string): (r: string)
    ensures r == [] || !IsSpace(r[|r| - 1])
    ensures |r| <= |s| && r == s[..|r|]
  {
    if s != [] && IsSpace(s[|s| - 1]) then TrimEnd(s[..|s| - 1]) else s
  }

  /** `str.strip()`: no whitespace left at either end. */
  function Strip(s: string): (r: string)
    ensures r == [] || (!IsSpace(r[0]) && !IsSpace(r[|r| - 1]))
  {
    var t := TrimEnd(s);
    var r := TrimStart(t);
    assert r != [] ==> r[|r| - 1] == t[|t| - 1];
    r
  }

  /** `str.strip(c)`: the character `c` removed from both ends. */
  function StripChar(s: string, c: char): string {
    TrimCharStart(TrimCharEnd(s, c), c)
  }

  function TrimCharStart(s: string, c: char): string {
    if s != [] && s[0] == c then TrimCharStart(s[1..], c) else s
  }

  function TrimCharEnd(s: string, c: char): string {
    if s != [] && s[|s| - 1] == c then TrimCharEnd(s[..|s| - 1], c) else s
  }

  /**
   * `re.search(pattern, s) is not None` for a pattern whose only special
   * character is `.`, which matches anything but a newline.
   */
  predicate Search(pattern: string, s: string) {
    SearchFrom(pattern, s, 0)
  }

  predicate SearchFrom(pattern: string, s: string, i: nat)
    decreases |s| - i
  {
    i + |pattern| <= |s| && (MatchesAt(pattern, s, i) || SearchFrom(pattern, s, i + 1))
  }

  predicate MatchesAt(pattern: string, s: string, i: nat)
    requires i + |pattern| <= |s|
  {
    forall k :: 0 <= k < |pattern| ==>
      if pattern[k] == '.' then s[i + k] != '\n' else s[i + k] == pattern[k]
  }

  /** The length of the run of digits that starts at `i`. */
  function DigitRun(s: string, i: nat): (d: nat)
    requires i <= |s|
    ensures i + d <= |s|
    decreases |s| - i
  {
    if i < |s| && IsDigit(s[i]) then 1 + DigitRun(s, i + 1) else 0
  }

  lemma {:induction false} DigitRunIsDigits(s: string, i: nat)
    requires i <= |s|
    ensures forall k :: i <= k < i + DigitRun(s, i) ==> IsDigit(s[k])
    decreases |s| - i
  {
    if i < |s| && IsDigit(s[i]) {
      DigitRunIsDigits(s, i + 1);
    }
  }

  /** The digit run at `i` of `ds + rest` ends where the digits `ds` end. */
  lemma {:induction false} DigitRunOfDigits(ds: string, rest: string, i: nat)
    requires i <= |ds| && forall k :: 0 <= k < |ds| ==> IsDigit(ds[k])
    requires rest == [] || !IsDigit(rest[0])
    ensures DigitRun(ds + rest, i) == |ds| - i
    decreases |ds| - i
  {
    var s := ds + rest;
    if i < |ds| {
      assert s[i] == ds[i];
      DigitRunOfDigits(ds, rest, i + 1);
    } else if rest != [] {
      assert s[i] == rest[0];
    }
  }

  predicate LiteralAt(s: string, i: nat, lit: string) {
    i + |lit| <= |s| && s[i..i + |lit|] == lit
  }

  /**
   * The leftmost match of the regular expression `pre\d*post`, as the index
   * where it starts. `\d*` is greedy; because `post` does not start with a
   * digit, backtracking never helps, so the digits are the whole run.
   */
  function DigitsSearch(s: string, pre: string, post: string, from: nat): (r: Option<nat>)
    requires post != [] && !IsDigit(post[0])
    ensures r.Some? ==> from <= r.value && r.value + |pre| <= |s|
    ensures r.Some? ==> LiteralAt(s, r.value, pre) &&
                        LiteralAt(s, r.value + |pre| + DigitRun(s, r.value + |pre|), post)
    decreases |s| - from
  {
    if from + |pre| > |s| then None
    else if LiteralAt(s, from, pre) && LiteralAt(s, from + |pre| + DigitRun(s, from + |pre|), post) then Some(from)
    else DigitsSearch(s, pre, post, from + 1)
  }
}
