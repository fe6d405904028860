/** The Jinja2 filters of the web layer: `datetime`, `days_remaining`,
    `format_amount` (its integer branch) and `truncate_smart`. */
module WebHelpers {
  import opened Common
  import opened Dates
  import GrantsService

  type ValidDay = d: Date | ValidDate(d) witness Date(1, 1, 1)
  type TimeOfDay = t: int | 0 <= t < 86_400_000_000

  /** What a template hands a filter: a string, a `datetime` (its date and
      the microseconds since its midnight), or anything else (`None`, a
      number) that has neither `strftime` nor a difference with `now`. */
  datatype TemplateValue = Text(s: string) | Moment(date: ValidDay, time: TimeOfDay) | Other

  // ---------------------------------------------------------------------------
  // datetime and days_remaining

  /** `datetime_filter`: a `%Y-%m-%d` string or a datetime printed as
      `%d/%m/%Y`; anything else comes back as it was. */
  function DatetimeFilter(v: TemplateValue): (r: TemplateValue)
    ensures v.Moment? ==> r == Text(FormatDmy(v.date))
    ensures v.Text? && ParseIso(v.s).None? ==> r == v
    ensures v.Other? ==> r == v
  {
    match v
    case Text(s) =>
      (match ParseIso(s)
       case Some(d) => Text(FormatDmy(d))
       case None => v)
    case Moment(d, _) => Text(FormatDmy(d))
    case Other => v
  }

  /** A date printed as `%Y-%m-%d` is reprinted day first. */
  lemma DatetimeFilterOfIso(d: Date)
    requires ValidDate(d)
    ensures DatetimeFilter(Text(FormatIso(d))) == Text(FormatDmy(d))
  {
    ParseIsoOfFormat(d);
  }

  /** The reprint keeps the digits: day, month and year change places. */
  lemma DatetimeFilterDigits(s: string)
    requires ParseIso(s).Some?
    ensures var d := ParseIso(s).value;
      DatetimeFilter(Text(s)) == Text(FormatDmy(d))
      && DatetimeFilter(Text(s)).s[..2] == Pad2(d.day) && DatetimeFilter(Text(s)).s[6..] == Pad4(d.year)
  {
  }

  /** `days_remaining_filter`: whole days to the deadline, floored at 0, and 0
      when the value is neither a `%Y-%m-%d` string nor a datetime. */
  function DaysRemainingFilter(v: TemplateValue, now: int): (r: int)
    ensures r >= 0
    ensures v.Other? || (v.Text? && ParseIso(v.s).None?) ==> r == 0
    ensures v.Text? ==> r == GrantsService.DaysRemaining(v.s, now)
    ensures v.Moment? && now >= Ordinal(v.date) * MicrosPerDay + v.time ==> r == 0
    ensures v.Moment? ==> (r > 0 <==> now + MicrosPerDay <= Ordinal(v.date) * MicrosPerDay + v.time)
    ensures v.Moment? && r > 0 ==>
      r * MicrosPerDay <= Ordinal(v.date) * MicrosPerDay + v.time - now < (r + 1) * MicrosPerDay
  {
    match v
    case Text(s) =>
      (match ParseIso(s)
       case Some(d) => var days := WholeDaysUntil(d, now); if days > 0 then days else 0
       case None => 0)
    case Moment(d, t) =>
      var days := (Ordinal(d) * MicrosPerDay + t - now) / MicrosPerDay;
      if days > 0 then days else 0
    case Other => 0
  }

  /** On strings the filter agrees with the count the grants service stores. */
  lemma DaysRemainingFilterAgrees(s: string, now: int)
    ensures DaysRemainingFilter(Text(s), now) == GrantsService.DaysRemaining(s, now)
  {
  }

  /** A datetime at midnight counts the same days as its date printed. */
  lemma DaysRemainingFilterMidnight(d: ValidDay, now: int)
    ensures DaysRemainingFilter(Moment(d, 0), now) == DaysRemainingFilter(Text(FormatIso(d)), now)
  {
    ParseIsoOfFormat(d);
  }

  // ---------------------------------------------------------------------------
  // format_amount

  /** The characters of `[\d.,]`. */
  predicate IsAmountChar(c: char) { IsAsciiDigit(c) || c == '.' || c == ',' }

  /** The first position at or after `i` that starts a run of amount
      characters, or `|s|`. */
  function RunStart(s: string, i: nat): (b: nat)
    requires i <= |s|
    ensures i <= b <= |s|
    ensures forall k :: i <= k < b ==> !IsAmountChar(s[k])
    ensures b < |s| ==> IsAmountChar(s[b])
    decreases |s| - i
  {
    if i == |s| || IsAmountChar(s[i]) then i else RunStart(s, i + 1)
  }

  /** The end of the run of amount characters starting at `j`. */
  function RunEnd(s: string, j: nat): (e: nat)
    requires j <= |s|
    ensures j <= e <= |s|
    ensures forall k :: j <= k < e ==> IsAmountChar(s[k])
    ensures e < |s| ==> !IsAmountChar(s[e])
    decreases |s| - j
  {
    if j < |s| && IsAmountChar(s[j]) then RunEnd(s, j + 1) else j
  }

  /** `v` is the run of amount characters that starts at `b`, the first
      amount character of `s`, and stops at the next other character or at
      the end. */
  predicate FirstRunAt(s: string, b: nat, v: string) {
    && b + |v| <= |s|
    && v == s[b..b + |v|]
    && (forall k :: 0 <= k < b ==> !IsAmountChar(s[k]))
    && (forall k :: 0 <= k < |v| ==> IsAmountChar(v[k]))
    && (b + |v| == |s| || !IsAmountChar(s[b + |v|]))
  }

  /** `re.findall(r'[\d.,]+', s)[0]`: the first maximal run of amount
      characters, if any. */
  function FirstNumber(s: string): (r: Option<string>)
    ensures r.None? <==> forall k :: 0 <= k < |s| ==> !IsAmountChar(s[k])
    ensures r.Some? ==> r.value != [] && Contains(s, r.value)
    ensures r.Some? ==> exists b: nat :: FirstRunAt(s, b, r.value)
  {
    var b := RunStart(s, 0);
    if b == |s| then None
    else
      var e := RunEnd(s, b);
      ContainsSlice(s, b, e);
      assert FirstRunAt(s, b, s[b..e]);
      Some(s[b..e])
  }

  /** A text has one first maximal run at most: the contract of `FirstNumber`
      determines its result. */
  lemma FirstRunUnique(s: string, b: nat, v: string, b': nat, v': string)
    requires v != [] && v' != []
    requires FirstRunAt(s, b, v) && FirstRunAt(s, b', v')
    ensures b == b' && v == v'
  {
    assert IsAmountChar(v[0]) && s[b] == v[0];
    assert IsAmountChar(v'[0]) && s[b'] == v'[0];
    forall k | b <= k < b + |v| ensures IsAmountChar(s[k]) {
      assert s[k] == v[k - b];
    }
    forall k | b' <= k < b' + |v'| ensures IsAmountChar(s[k]) {
      assert s[k] == v'[k - b'];
    }
  }

  /** `f"{n:,}".replace(',', ' ')` on the numeral `d`: spaces between groups
      of three digits, counted from the right. */
  function Group3(d: string): (r: string)
    decreases |d|
  {
    if |d| <= 3 then d else Group3(d[..|d| - 3]) + " " + d[|d| - 3..]
  }

  lemma {:induction false} DeleteCharAppend(a: string, b: string, c: char)
    ensures DeleteChar(a + b, c) == DeleteChar(a, c) + DeleteChar(b, c)
    decreases |a|
  {
    if a == [] {
      assert a + b == b;
    } else {
      DeleteCharAppend(a[1..], b, c);
      var t := a + b;
      assert t != [] && t[0] == a[0] && t[1..] == a[1..] + b;
      if a[0] == c {
        assert DeleteChar(t, c) == DeleteChar(a[1..] + b, c);
        assert DeleteChar(a, c) == DeleteChar(a[1..], c);
      } else {
        assert DeleteChar(t, c) == [a[0]] + DeleteChar(a[1..] + b, c);
        assert DeleteChar(a, c) == [a[0]] + DeleteChar(a[1..], c);
        assert [a[0]] + (DeleteChar(a[1..], c) + DeleteChar(b, c))
            == ([a[0]] + DeleteChar(a[1..], c)) + DeleteChar(b, c);
      }
    }
  }

  /** Deleting a character that does not occur changes nothing. */
  lemma {:induction false} DeleteCharAbsent(a: string, c: char)
    requires forall i :: 0 <= i < |a| ==> a[i] != c
    ensures DeleteChar(a, c) == a
    decreases |a|
  {
    if a != [] {
      DeleteCharAbsent(a[1..], c);
    }
  }

  /** Grouping inserts one space per full group of three after the leading
      group. */
  lemma {:induction false} Group3Length(d: string)
    requires d != []
    ensures |Group3(d)| == |d| + (|d| - 1) / 3
    decreases |d|
  {
    if |d| > 3 {
      Group3Length(d[..|d| - 3]);
    }
  }

  /** Grouping only inserts spaces: deleting them gives the numeral back, and
      there is one space per full group of three after the leading group. */
  lemma {:induction false} Group3RoundTrip(d: string)
    requires AllDigits(d) && d != []
    ensures DeleteChar(Group3(d), ' ') == d
    ensures |Group3(d)| == |d| + (|d| - 1) / 3
    decreases |d|
  {
    Group3Length(d);
    if |d| <= 3 {
      DeleteCharAbsent(d, ' ');
    } else {
      var init, tail := d[..|d| - 3], d[|d| - 3..];
      Group3RoundTrip(init);
      var g := Group3(init);
      assert Group3(d) == (g + " ") + tail;
      assert DeleteChar(g + " ", ' ') == init by {
        DeleteCharAppend(g, " ", ' ');
        assert DeleteChar(" ", ' ') == [];
        assert init + [] == init;
      }
      assert DeleteChar(tail, ' ') == tail by {
        DeleteCharAbsent(tail, ' ');
      }
      DeleteCharAppend(g + " ", tail, ' ');
      assert init + tail == d;
    }
  }

  /** What `format_amount_filter` gives, except that the float branch (a
      first run with a `'.'`) is only recognised, not computed. */
  datatype AmountOutput = Formatted(v: TemplateValue) | FloatBranch(number: string)

  /** The most digits `int()` converts from a string: CPython's default
      `sys.get_int_max_str_digits()`. A longer numeral raises `ValueError`. */
  const IntMaxStrDigits: nat := 4300

  /** The integer part of `format_amount_filter`. A numeral too long for
      `int()` raises inside the `try`, and the text comes back unchanged. */
  function FormatAmount(v: TemplateValue): (r: AmountOutput)
    ensures !v.Text? ==> r == Formatted(v)
    ensures v.Text? && FirstNumber(v.s).None? ==> r == Formatted(v)
  {
    match v
    case Text(s) =>
      (match FirstNumber(s)
       case None => Formatted(v)
      case Some(run) =>
        var number := DeleteChar(run, ',');
        if '.' in number then FloatBranch(number)
        else if number == [] || |number| > IntMaxStrDigits then Formatted(v)
        else
          assert AllDigits(number) by {
            assert forall i :: 0 <= i < |run| ==> IsAmountChar(run[i]) by {
              var b := RunStart(s, 0);
              assert run == s[b..RunEnd(s, b)];
            }
            DeleteCharClass(run);
          }
          Formatted(Text(ReplaceAll(s, run, Group3(Decimal(DecimalValue(number)))))))
    case _ => Formatted(v)
  }

  /** Removing the commas from a run of amount characters leaves digits and
      dots. */
  lemma {:induction false} DeleteCharClass(run: string)
    requires forall i :: 0 <= i < |run| ==> IsAmountChar(run[i])
    ensures forall i :: 0 <= i < |DeleteChar(run, ',')| ==>
      IsAsciiDigit(DeleteChar(run, ',')[i]) || DeleteChar(run, ',')[i] == '.'
  {
    var r := DeleteChar(run, ',');
    forall i | 0 <= i < |r| ensures IsAsciiDigit(r[i]) || r[i] == '.' {
      assert r[i] != ',';
      DeleteCharMember(run, ',', i);
    }
  }

  /** Every character `DeleteChar` keeps is a character of its input. */
  lemma {:induction false} DeleteCharMember(s: string, c: char, i: nat)
    requires i < |DeleteChar(s, c)|
    ensures DeleteChar(s, c)[i] in s
    decreases |s|
  {
    if s[0] != c {
      if i > 0 {
        DeleteCharMember(s[1..], c, i - 1);
      }
    } else {
      DeleteCharMember(s[1..], c, i);
    }
  }

  /** A value of zero has only zero digits. */
  lemma {:induction false} ZeroValue(d: string)
    requires AllDigits(d) && DecimalValue(d) == 0
    ensures forall i :: 0 <= i < |d| ==> d[i] == '0'
    decreases |d|
  {
    if d != [] {
      ZeroValue(d[..|d| - 1]);
    }
  }

  /** `str(int(d))` is `d` for a numeral without a leading zero. */
  lemma {:induction false} DecimalOfDigits(d: string)
    requires AllDigits(d) && d != [] && (d[0] != '0' || |d| == 1)
    ensures Decimal(DecimalValue(d)) == d
    decreases |d|
  {
    if |d| > 1 {
      var init, last := d[..|d| - 1], d[|d| - 1];
      assert init[0] == d[0];
      assert AllDigits(init) by {
        forall i | 0 <= i < |init| ensures IsAsciiDigit(init[i]) {
          assert init[i] == d[i];
        }
      }
      DecimalOfDigits(init);
      var v := DecimalValue(init);
      if v == 0 {
        ZeroValue(init);
        assert false;
      }
      DivModTen(v, DigitValue(last));
      assert DecimalValue(d) == 10 * v + DigitValue(last);
      assert DigitChar(DigitValue(last)) == last;
      assert d == init + [last];
    }
  }

  /** A first number of at most three digits, written without commas or a
      leading zero, is already formatted: the string comes back unchanged. */
  lemma FormatAmountShortNumber(s: string)
    requires FirstNumber(s).Some?
    requires var run := FirstNumber(s).value;
      |run| <= 3 && AllDigits(run) && (run[0] != '0' || |run| == 1)
    ensures FormatAmount(Text(s)) == Formatted(Text(s))
  {
    var run := FirstNumber(s).value;
    DeleteCharAbsent(run, ',');
    assert '.' !in run && 0 < |run| <= IntMaxStrDigits;
    DecimalOfDigits(run);
    assert Group3(run) == run;
    ReplaceAllSelf(s, run);
  }

  /** A first number whose digits, commas removed, exceed the `int()` limit
      leaves the text unchanged: the `ValueError` is caught and the input
      returned. */
  lemma FormatAmountLongNumber(s: string)
    requires FirstNumber(s).Some?
    requires var number := DeleteChar(FirstNumber(s).value, ','); '.' !in number && |number| > IntMaxStrDigits
    ensures FormatAmount(Text(s)) == Formatted(Text(s))
  {
  }

  /** The concrete case: 4301 ones. */
  lemma FormatAmountLongExample()
    ensures FormatAmount(Text(seq(4301, _ => '1'))) == Formatted(Text(seq(4301, _ => '1')))
  {
    var s := seq(4301, _ => '1');
    assert IsAmountChar(s[0]) && RunStart(s, 0) == 0;
    assert RunEnd(s, 0) == |s|;
    assert s[0..|s|] == s;
    DeleteCharAbsent(s, ',');
    FormatAmountLongNumber(s);
  }

  /** In the integer branch the regrouped numeral carries the value of the
      first run with its commas removed. */
  lemma FormatAmountKeepsValue(s: string)
    requires FirstNumber(s).Some?
    requires var number := DeleteChar(FirstNumber(s).value, ','); '.' !in number && number != [] && |number| <= IntMaxStrDigits
    ensures var run := FirstNumber(s).value;
      var number := DeleteChar(run, ',');
      AllDigits(number)
      && FormatAmount(Text(s)) == Formatted(Text(ReplaceAll(s, run, Group3(Decimal(DecimalValue(number))))))
      && DeleteChar(Group3(Decimal(DecimalValue(number))), ' ') == Decimal(DecimalValue(number))
      && DecimalValue(Decimal(DecimalValue(number))) == DecimalValue(number)
  {
    var run := FirstNumber(s).value;
    var number := DeleteChar(run, ',');
    var b := RunStart(s, 0);
    assert run == s[b..RunEnd(s, b)];
    DeleteCharClass(run);
    var n := DecimalValue(number);
    Group3RoundTrip(Decimal(n));
    DecimalRoundTrip(n);
  }

  // ---------------------------------------------------------------------------
  // truncate_smart

  /** `last_space > length * 0.8`, exactly: the product is compared as the
      rational it approximates (`5 * last_space > 4 * length`). */
  predicate LateSpace(lastSpace: int, length: int) {
    5 * lastSpace > 4 * length
  }

  /** `truncate_smart_filter(text, length)`. */
  function TruncateSmart(text: string, length: int): (r: string)
    ensures text == [] || |text| <= length ==> r == text
    ensures text != [] && |text| > length ==>
      |r| >= 3 && r[|r| - 3..] == "..." && r[..|r| - 3] <= text
    ensures length >= 0 && |text| > length ==> |r| <= length + 3
  {
    if text == [] then text
    else if |text| <= length then text
    else
      var truncated := PyPrefix(text, length);
      var lastSpace := RFind(truncated, ' ');
      if LateSpace(lastSpace, length) then PyPrefix(truncated, lastSpace) + "..." else truncated + "..."
  }

  /** Where the cut falls for a non-negative length: at the last space of the
      first `length` characters when it lies beyond 80 % of `length`, at
      `length` otherwise. */
  lemma TruncateSmartCut(text: string, length: nat)
    requires |text| > length
    ensures var base := TruncateSmart(text, length)[..|TruncateSmart(text, length)| - 3];
      || (base == text[..length] && forall k :: 4 * length < 5 * k < 5 * length ==> text[k] != ' ')
      || (exists k :: 4 * length < 5 * k && k < length && text[k] == ' ' && base == text[..k]
           && forall j :: k < j < length ==> text[j] != ' ')
  {
    var truncated := text[..length];
    var lastSpace := RFind(truncated, ' ');
    var r := TruncateSmart(text, length);
    if LateSpace(lastSpace, length) {
      assert 0 <= lastSpace < length;
      assert PyPrefix(truncated, lastSpace) == truncated[..lastSpace];
      assert r == truncated[..lastSpace] + "...";
      assert r[..|r| - 3] == text[..lastSpace];
      assert text[lastSpace] == truncated[lastSpace];
      forall j | lastSpace < j < length ensures text[j] != ' ' {
        assert text[j] == truncated[j];
      }
      assert 4 * length < 5 * lastSpace && lastSpace < length && text[lastSpace] == ' ' && r[..|r| - 3] == text[..lastSpace];
    } else {
      assert PyPrefix(text, length) == truncated;
      assert r == truncated + "...";
      assert r[..|r| - 3] == truncated;
      forall k | 4 * length < 5 * k < 5 * length ensures text[k] != ' ' {
        assert text[k] == truncated[k];
      }
    }
  }
}
