/** Character and string helpers shared by the whole model: the lower-casing,
    substring tests, slicing and searching that the Python back end and the
    JavaScript front end apply to titles and locations, and the keyword tables
    the relevance policies are written in. */
module Common {

  datatype Option<T> = None | Some(value: T)

  /** The value of an option as a list of zero or one elements. */
  function OptionToSeq<T>(o: Option<T>): seq<T> {
    match o
    case None => []
    case Some(v) => [v]
  }

  /** The members of `a + b`. */
  lemma MembersAppend<T>(a: seq<T>, b: seq<T>)
    ensures forall y :: y in a + b <==> y in a || y in b
  {
    forall y | y in a ensures y in a + b {
      var k :| 0 <= k < |a| && a[k] == y;
      assert (a + b)[k] == y;
    }
    forall y | y in b ensures y in a + b {
      var k :| 0 <= k < |b| && b[k] == y;
      assert (a + b)[|a| + k] == y;
    }
  }

  lemma InAppendLeft<T>(a: seq<T>, b: seq<T>, y: T)
    requires y in a
    ensures y in a + b
  {
    var k :| 0 <= k < |a| && a[k] == y;
    assert (a + b)[k] == y;
  }

  lemma InAppendRight<T>(a: seq<T>, b: seq<T>, y: T)
    requires y in b
    ensures y in a + b
  {
    var k :| 0 <= k < |b| && b[k] == y;
    assert (a + b)[|a| + k] == y;
  }

  /** When `c(m)` is `c(m - 1)` followed by `f(m - 1)` for every `m` up to
      `n`, all of `f(i)` for `i < n` is found in `c(n)`. */
  lemma {:induction false} InSteppedConcat<T>(c: nat -> seq<T>, f: nat -> seq<T>, n: nat, i: nat, y: T)
    requires forall m: nat :: 0 < m <= n ==> c(m) == c(m - 1) + f(m - 1)
    requires i < n && y in f(i)
    ensures y in c(n)
  {
    if i < n - 1 {
      InSteppedConcat(c, f, n - 1, i, y);
      InAppendLeft(c(n - 1), f(n - 1), y);
    } else {
      InAppendRight(c(n - 1), f(n - 1), y);
    }
  }

  /** The members of `s + [x]`. */
  lemma MembersAppendOne<T>(s: seq<T>, x: T)
    ensures forall y :: y in s + [x] <==> y in s || y == x
  {
    assert (s + [x])[|s|] == x;
    forall y | y in s ensures y in s + [x] {
      var k :| 0 <= k < |s| && s[k] == y;
      assert (s + [x])[k] == y;
    }
  }

  // ---------------------------------------------------------------------------
  // Characters

  /** Capital letters of the Basic Latin and Latin-1 blocks. */
  predicate IsUpper(c: char) {
    ('A' <= c <= 'Z') || ('À' <= c <= 'Þ' && c != '×')
  }

  /** `str.lower()` and `String.prototype.toLowerCase()` on one character of the
      Basic Latin and Latin-1 blocks: each capital moves down by 0x20. */
  function LowerChar(c: char): char {
    if IsUpper(c) then (c as int + 32) as char else c
  }

  /** `s.lower()`, character by character. */
  function Lower(s: string): (r: string)
    ensures |r| == |s|
    ensures forall i :: 0 <= i < |s| ==> r[i] == LowerChar(s[i])
  {
    seq(|s|, i requires 0 <= i < |s| => LowerChar(s[i]))
  }

  /** Lower-casing twice is lower-casing once. */
  lemma LowerIdempotent(s: string)
    ensures Lower(Lower(s)) == Lower(s)
  {
    forall i | 0 <= i < |s| ensures LowerChar(LowerChar(s[i])) == LowerChar(s[i]) {
      var c := s[i];
      if IsUpper(c) {
        assert !IsUpper((c as int + 32) as char);
      }
    }
  }

  predicate IsAsciiDigit(c: char) { '0' <= c <= '9' }

  /** Python's `\w` on the Basic Latin and Latin-1 blocks (letters, digits,
      numeric signs and `_`), extended to the Latin Extended-A letters. */
  predicate IsWordChar(c: char) {
    || 'a' <= c <= 'z' || 'A' <= c <= 'Z' || IsAsciiDigit(c) || c == '_'
    || c == 'ª' || c == '²' || c == '³' || c == 'µ' || c == '¹' || c == 'º'
    || ('¼' <= c <= '¾') || ('À' <= c <= 'ÿ' && c != '×' && c != '÷')
    || ('Ā' <= c <= 'ſ')
  }

  /** Python's `\s` and the characters `str.strip()` removes. */
  predicate IsSpace(c: char) {
    || c == ' ' || ('\t' <= c <= '\r') || ('\U{1C}' <= c <= '\U{1F}')
    || c == '\U{85}' || c == '\U{A0}' || c == '\U{1680}' || ('\U{2000}' <= c <= '\U{200A}')
    || c == '\U{2028}' || c == '\U{2029}' || c == '\U{202F}' || c == '\U{205F}' || c == '\U{3000}'
  }

  /** The characters of `s` that satisfy `keep`, in order (a `re.sub` that
      deletes every character outside a class). */
  function KeepChars(s: string, keep: char -> bool): (r: string)
    ensures |r| <= |s|
    ensures forall i :: 0 <= i < |r| ==> keep(r[i])
    decreases |s|
  {
    if s == [] then []
    else if keep(s[0]) then [s[0]] + KeepChars(s[1..], keep)
    else KeepChars(s[1..], keep)
  }

  /** The characters of `s` other than `c` (`s.replace(c, '')`). */
  function DeleteChar(s: string, c: char): (r: string)
    ensures c !in r
    ensures |r| <= |s|
  {
    if s == [] then []
    else if s[0] == c then DeleteChar(s[1..], c)
    else [s[0]] + DeleteChar(s[1..], c)
  }

  // ---------------------------------------------------------------------------
  // Substrings, slicing, searching

  /** Python's `p in s` and JavaScript's `s.includes(p)`. */
  predicate Contains(s: string, p: string)
    decreases |s|
  {
    p <= s || (|s| > 0 && Contains(s[1..], p))
  }

  /** An occurrence at position `i` makes `Contains` true. */
  lemma {:induction false} ContainsFrom(s: string, p: string, i: nat)
    requires i <= |s| && p <= s[i..]
    ensures Contains(s, p)
    decreases i
  {
    if i > 0 {
      assert s[1..][i - 1..] == s[i..];
      ContainsFrom(s[1..], p, i - 1);
    }
  }

  /** `Contains` is the occurrence of `p` at some position of `s`. */
  lemma {:induction false} ContainsAt(s: string, p: string)
    ensures Contains(s, p) <==> exists i :: 0 <= i <= |s| && p <= s[i..]
    decreases |s|
  {
    if p <= s {
      assert s[0..] == s;
    } else if |s| > 0 && Contains(s[1..], p) {
      ContainsAt(s[1..], p);
      var i :| 0 <= i <= |s| - 1 && p <= s[1..][i..];
      assert s[1..][i..] == s[i + 1..];
    }
    forall i | 0 <= i <= |s| && p <= s[i..] ensures Contains(s, p) {
      ContainsFrom(s, p, i);
    }
  }

  /** A string contains every one of its own substrings `s[i..j]`. */
  lemma {:induction false} ContainsSlice(s: string, i: nat, j: nat)
    requires i <= j <= |s|
    ensures Contains(s, s[i..j])
    decreases i
  {
    if i == 0 {
      assert s[..j] <= s;
    } else {
      ContainsSlice(s[1..], i - 1, j - 1);
      assert s[1..][i - 1..j - 1] == s[i..j];
    }
  }

  /** Python's `any(k in text for k in keywords)` and JavaScript's
      `keywords.some(k => text.includes(k))`. */
  predicate AnyOccurs(keywords: seq<string>, text: string) {
    exists k :: k in keywords && Contains(text, k)
  }

  /** How many of `keywords` occur in `text`, each counted once per entry. */
  function CountOccurring(keywords: seq<string>, text: string): (n: nat)
    ensures n <= |keywords|
    ensures n == 0 <==> !AnyOccurs(keywords, text)
  {
    if keywords == [] then 0
    else
      var last := keywords[|keywords| - 1];
      var init := keywords[..|keywords| - 1];
      assert keywords == init + [last];
      assert forall k :: k in keywords <==> k in init || k == last;
      CountOccurring(init, text) + (if Contains(text, last) then 1 else 0)
  }

  /** Counting over one more keyword adds one exactly when that keyword
      occurs. */
  lemma CountOccurringStep(keywords: seq<string>, i: nat, text: string)
    requires i < |keywords|
    ensures CountOccurring(keywords[..i + 1], text) ==
      CountOccurring(keywords[..i], text) + (if Contains(text, keywords[i]) then 1 else 0)
  {
    var p := keywords[..i + 1];
    assert p[..|p| - 1] == keywords[..i] && p[|p| - 1] == keywords[i];
  }

  /** Python's `s[:n]` for `n >= 0`. */
  function Take<T>(s: seq<T>, n: nat): (r: seq<T>)
    ensures r <= s
    ensures |r| == if n <= |s| then n else |s|
  {
    if n <= |s| then s[..n] else s
  }

  /** Python's `s[:n]` for any integer `n`: a negative `n` drops `-n`
      characters from the end. */
  function PyPrefix(s: string, n: int): (r: string)
    ensures r <= s
    ensures n >= 0 ==> r == Take(s, n)
  {
    if n >= 0 then Take(s, n)
    else if |s| + n >= 0 then s[..|s| + n]
    else []
  }

  /** Python's `s.startswith(p)`. */
  predicate StartsWith(s: string, p: string) { p <= s }

  /** Python's `s.rfind(c)`: the last index of `c`, or -1. */
  function RFind(s: string, c: char): (r: int)
    ensures -1 <= r < |s|
    ensures r >= 0 ==> s[r] == c
    ensures forall j :: r < j < |s| ==> s[j] != c
  {
    if s == [] then -1
    else if s[|s| - 1] == c then |s| - 1
    else RFind(s[..|s| - 1], c)
  }

  /** Python's `s.lstrip()`. */
  function StripStart(s: string): (r: string)
    ensures |r| <= |s|
    ensures r == s[|s| - |r|..]
    ensures r != [] ==> !IsSpace(r[0])
  {
    if s != [] && IsSpace(s[0]) then StripStart(s[1..]) else s
  }

  /** Python's `s.rstrip()`. */
  function StripEnd(s: string): (r: string)
    ensures r <= s
    ensures r != [] ==> !IsSpace(r[|r| - 1])
  {
    if s != [] && IsSpace(s[|s| - 1]) then StripEnd(s[..|s| - 1]) else s
  }

  /** Python's `s.strip()`. */
  function Strip(s: string): string {
    StripEnd(StripStart(s))
  }

  /** Python's `s.replace(pat, rep)`: every non-overlapping occurrence of `pat`,
      scanning from the left, becomes `rep`. */
  function ReplaceAll(s: string, pat: string, rep: string): string
    requires pat != []
    decreases |s|
  {
    if |s| < |pat| then s
    else if pat <= s then rep + ReplaceAll(s[|pat|..], pat, rep)
    else [s[0]] + ReplaceAll(s[1..], pat, rep)
  }

  /** Replacing a string by itself changes nothing. */
  lemma {:induction false} ReplaceAllSelf(s: string, pat: string)
    requires pat != []
    ensures ReplaceAll(s, pat, pat) == s
    decreases |s|
  {
    if |s| < |pat| {
    } else if pat <= s {
      ReplaceAllSelf(s[|pat|..], pat);
      assert s == pat + s[|pat|..];
    } else {
      ReplaceAllSelf(s[1..], pat);
      assert s == [s[0]] + s[1..];
    }
  }

  /** A string that does not contain `pat` is left as it is. */
  lemma {:induction false} ReplaceAllAbsent(s: string, pat: string, rep: string)
    requires pat != [] && !Contains(s, pat)
    ensures ReplaceAll(s, pat, rep) == s
    decreases |s|
  {
    if |s| < |pat| {
    } else {
      assert !(pat <= s);
      ReplaceAllAbsent(s[1..], pat, rep);
      assert s == [s[0]] + s[1..];
    }
  }

  // ---------------------------------------------------------------------------
  // Decimal numerals

  function DigitChar(d: int): char
    requires 0 <= d < 10
  {
    ('0' as int + d) as char
  }

  function DigitValue(c: char): int
    requires IsAsciiDigit(c)
  {
    c as int - '0' as int
  }

  predicate AllDigits(s: string) {
    forall i :: 0 <= i < |s| ==> IsAsciiDigit(s[i])
  }

  /** `int(s)` for a string of ASCII digits. */
  function DecimalValue(s: string): (n: nat)
    requires AllDigits(s)
  {
    if s == [] then 0 else 10 * DecimalValue(s[..|s| - 1]) + DigitValue(s[|s| - 1])
  }

  /** `str(n)`: the shortest decimal numeral of `n`. */
  function Decimal(n: nat): (r: string)
    ensures r != [] && AllDigits(r)
    decreases n
  {
    if n < 10 then [DigitChar(n)] else Decimal(n / 10) + [DigitChar(n % 10)]
  }

  /** The last digit and the rest of `10 * a + b`. */
  lemma DivModTen(a: nat, b: int)
    requires 0 <= b < 10
    ensures (10 * a + b) / 10 == a && (10 * a + b) % 10 == b
  {
  }

  /** `Decimal` and `DecimalValue` are inverse. */
  lemma {:induction false} DecimalRoundTrip(n: nat)
    ensures DecimalValue(Decimal(n)) == n
    decreases n
  {
    var r := Decimal(n);
    if n >= 10 {
      DecimalRoundTrip(n / 10);
      assert r[..|r| - 1] == Decimal(n / 10);
    }
  }

  /** `str(n)` never starts with a zero, except for zero itself. */
  lemma {:induction false} DecimalNoLeadingZero(n: nat)
    ensures Decimal(n)[0] == '0' <==> n == 0
    decreases n
  {
    if n >= 10 {
      DecimalNoLeadingZero(n / 10);
      assert Decimal(n)[0] == Decimal(n / 10)[0];
    }
  }

  // ---------------------------------------------------------------------------
  // Keyword tables

  /** One row of a keyword table: a category and the words that signal it. */
  datatype Entry = Entry(name: string, keywords: seq<string>)

  /** The index of the first row at or after `k` whose keywords occur in
      `text`, or `|table|` when there is none. */
  function FirstMatchFrom(table: seq<Entry>, text: string, k: nat): (i: nat)
    requires k <= |table|
    ensures k <= i <= |table|
    ensures i < |table| ==> AnyOccurs(table[i].keywords, text)
    ensures forall j :: k <= j < i ==> !AnyOccurs(table[j].keywords, text)
    decreases |table| - k
  {
    if k == |table| then k
    else if AnyOccurs(table[k].keywords, text) then k
    else FirstMatchFrom(table, text, k + 1)
  }

  /** The first row, in table order, whose keywords occur in `text` (a loop
      over a Python dict's `items()` that returns on the first hit). */
  function FirstMatch(table: seq<Entry>, text: string): (r: Option<string>)
    ensures r.None? <==> forall j :: 0 <= j < |table| ==> !AnyOccurs(table[j].keywords, text)
    ensures r.Some? ==> var i := FirstMatchFrom(table, text, 0);
      i < |table| && r.value == table[i].name
  {
    var i := FirstMatchFrom(table, text, 0);
    if i < |table| then Some(table[i].name) else None
  }

  /** The index of the first row at or after `k` named `name`, or `|table|`. */
  function LookupFrom(table: seq<Entry>, name: string, k: nat): (i: nat)
    requires k <= |table|
    ensures k <= i <= |table|
    ensures i < |table| ==> table[i].name == name
    ensures forall j :: k <= j < i ==> table[j].name != name
    decreases |table| - k
  {
    if k == |table| then k
    else if table[k].name == name then k
    else LookupFrom(table, name, k + 1)
  }

  /** `table.get(name)`. */
  function Lookup(table: seq<Entry>, name: string): (r: Option<seq<string>>)
    ensures r.None? <==> forall j :: 0 <= j < |table| ==> table[j].name != name
    ensures r.Some? ==> exists j :: 0 <= j < |table| && table[j].name == name && r.value == table[j].keywords
  {
    var i := LookupFrom(table, name, 0);
    if i < |table| then Some(table[i].keywords) else None
  }

  /** `name in table`. */
  predicate HasName(table: seq<Entry>, name: string) {
    exists j :: 0 <= j < |table| && table[j].name == name
  }
}
