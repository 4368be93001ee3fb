/** The string operations the bot applies to a message: Python's `str.strip()`
    and `str.upper()`, `str.endswith`, and the command a message starts with. */
module Text {
  import opened Numerics

  /** The characters Python's `str.isspace()` accepts, which `strip()` and
      `split()` remove. */
  predicate IsSpace(c: char)
  {
    '\t' <= c <= '\r' || '\U{1c}' <= c <= ' '
    || c == '\U{85}' || c == '\U{a0}' || c == '\U{1680}'
    || '\U{2000}' <= c <= '\U{200a}' || c == '\U{2028}' || c == '\U{2029}'
    || c == '\U{202f}' || c == '\U{205f}' || c == '\U{3000}'
  }

  predicate AllSpace(s: string)
  {
    forall k :: 0 <= k < |s| ==> IsSpace(s[k])
  }

  /** The number of whitespace characters `s` starts with. */
  function LeadingSpaces(s: string): (n: nat)
    ensures n <= |s|
    ensures forall k :: 0 <= k < n ==> IsSpace(s[k])
    ensures n < |s| ==> !IsSpace(s[n])
  {
    if s != [] && IsSpace(s[0]) then 1 + LeadingSpaces(s[1..]) else 0
  }

  /** The number of whitespace characters `s` ends with. */
  function TrailingSpaces(s: string): (n: nat)
    ensures n <= |s|
    ensures forall k :: |s| - n <= k < |s| ==> IsSpace(s[k])
    ensures n < |s| ==> !IsSpace(s[|s| - 1 - n])
  {
    if s != [] && IsSpace(s[|s| - 1]) then 1 + TrailingSpaces(s[..|s| - 1]) else 0
  }

  /** `s.strip()`: `s` with the whitespace at both ends removed. It is empty
      exactly when `s` is all whitespace, and otherwise starts and ends with
      a non-space character. */
  function Strip(s: string): (r: string)
    ensures r == [] <==> AllSpace(s)
    ensures r != [] ==> !IsSpace(r[0]) && !IsSpace(r[|r| - 1])
  {
    var lead := LeadingSpaces(s);
    if lead == |s| then []
    else
      var trail := TrailingSpaces(s);
      assert !IsSpace(s[lead]);
      s[lead..|s| - trail]
  }

  /** What `strip()` keeps is the slice of `s` after its leading whitespace,
      and every character outside that slice is whitespace. */
  lemma StripDropsOnlySpace(s: string)
    ensures LeadingSpaces(s) + |Strip(s)| <= |s|
    ensures Strip(s) == s[LeadingSpaces(s)..LeadingSpaces(s) + |Strip(s)|]
    ensures forall k :: 0 <= k < |s| && !(LeadingSpaces(s) <= k < LeadingSpaces(s) + |Strip(s)|) ==> IsSpace(s[k])
  {
  }

  lemma StripIdempotent(s: string)
    ensures Strip(Strip(s)) == Strip(s)
  {
    var r := Strip(s);
    if r != [] {
      assert LeadingSpaces(r) == 0;
      assert TrailingSpaces(r) == 0;
      assert r[0..|r|] == r;
    }
  }

  /** Python's upper-case mapping for ASCII and basic Cyrillic letters; other
      characters are left alone. */
  function UpperChar(c: char): char
  {
    if 'a' <= c <= 'z' then (c as int - 32) as char
    else if '\U{430}' <= c <= '\U{44f}' then (c as int - 32) as char
    else if '\U{450}' <= c <= '\U{45f}' then (c as int - 80) as char
    else c
  }

  lemma UpperCharIdempotent(c: char)
    ensures UpperChar(UpperChar(c)) == UpperChar(c)
  {
  }

  /** `s.upper()`, character by character. */
  function Upper(s: string): (r: string)
    ensures |r| == |s|
    ensures forall k :: 0 <= k < |s| ==> r[k] == UpperChar(s[k])
  {
    if s == [] then [] else [UpperChar(s[0])] + Upper(s[1..])
  }

  /** A text is rejected unless it equals its own upper-case form. */
  predicate IsUpper(s: string)
  {
    Upper(s) == s
  }

  lemma {:induction false} UpperAppend(a: string, b: string)
    ensures Upper(a + b) == Upper(a) + Upper(b)
  {
    if a == [] {
      assert a + b == b;
    } else {
      assert (a + b)[1..] == a[1..] + b;
      UpperAppend(a[1..], b);
    }
  }

  lemma UpperIsUpper(s: string)
    ensures IsUpper(Upper(s))
  {
    forall k | 0 <= k < |s|
      ensures Upper(Upper(s))[k] == Upper(s)[k]
    {
      UpperCharIdempotent(s[k]);
    }
  }

  predicate EndsWith(s: string, suffix: string)
  {
    |suffix| <= |s| && s[|s| - |suffix|..] == suffix
  }

  /** The longest prefix of `s` that contains no character satisfying `stop`. */
  function TakeUntil(s: string, stop: char -> bool): (r: string)
    ensures r <= s
    ensures forall k :: 0 <= k < |r| ==> !stop(r[k])
    ensures |r| < |s| ==> stop(s[|r|])
  {
    if s == [] || stop(s[0]) then [] else [s[0]] + TakeUntil(s[1..], stop)
  }

  /** The command pyTelegramBotAPI reads from a message text: for a text
      starting with '/', its first whitespace-delimited word, cut at the first
      '@', without the '/'. */
  function Command(text: string): (r: Option<string>)
    ensures r.Some? <==> |text| > 0 && text[0] == '/'
    ensures r.Some? ==> ['/'] + r.value <= text
    ensures r.Some? ==> forall k :: 0 <= k < |r.value| ==> !IsSpace(r.value[k]) && r.value[k] != '@'
    ensures r.Some? && 1 + |r.value| < |text| ==> IsSpace(text[1 + |r.value|]) || text[1 + |r.value|] == '@'
  {
    if |text| > 0 && text[0] == '/' then
      var word := TakeUntil(text, IsSpace);
      var name := TakeUntil(word, c => c == '@');
      assert name <= text;
      assert |name| < |text| ==> IsSpace(text[|name|]) || text[|name|] == '@' by {
        if |name| < |word| {
          assert word[|name|] == '@' && text[|name|] == word[|name|];
        } else if |name| < |text| {
          assert |name| == |word| && IsSpace(text[|word|]);
        }
      }
      Some(name[1..])
    else None
  }
}
