/**
 * The small helpers of `utils/functions.ts`: the `YYYY-MM-DD` form of a
 * date, the default date range of the two tables, and the avatar and file
 * URLs.
 */
module DateUtils {
  import opened Js
  import opened JsDate

  // ------------------------------------------------------------ formatDate

  /** `formatDate(date)`: the full year, then the month (counted from 1) and the day, each padded to two digits. */
  function FormatDate(d: Day): string
  {
    IntToString(d.year) + "-" + PadStart2(IntToString(d.month)) + "-" + PadStart2(IntToString(d.day))
  }

  /** A number below 100, padded to two digits, reads back as itself. */
  lemma TwoDigits(n: nat)
    requires n < 100
    ensures var t := PadStart2(NatToString(n));
      |t| == 2 && AllDigits(t) && DigitsValue(t) == n
  {
    NatToStringLength(n);
    NatToStringValue(n);
    var t := PadStart2(NatToString(n));
    if n < 10 {
      assert t == ['0'] + NatToString(n);
      assert t[..1] == ['0'];
      assert DigitsValue(t[..1]) == 0 by {
        assert t[..1][..0] == [];
      }
      assert NatToString(n) == [DigitChar(n)];
    }
  }

  /**
   * For a four-digit year, `formatDate` writes ten characters: four digits of
   * year, `-`, two of month, `-`, two of day, and each group reads back as
   * the date's own field.
   */
  lemma FormatDateFields(d: Day)
    requires Calendar(d) && 1000 <= d.year <= 9999
    ensures var s := FormatDate(d);
      && |s| == 10 && s[4] == '-' && s[7] == '-'
      && AllDigits(s[..4]) && DigitsValue(s[..4]) == d.year
      && AllDigits(s[5..7]) && DigitsValue(s[5..7]) == d.month
      && AllDigits(s[8..]) && DigitsValue(s[8..]) == d.day
  {
    var y, m, dd := NatToString(d.year), PadStart2(NatToString(d.month)), PadStart2(NatToString(d.day));
    NatToStringLength(d.year);
    NatToStringValue(d.year);
    TwoDigits(d.month);
    TwoDigits(d.day);
    DashedSlices(y, m, dd);
  }

  /** The groups of `y-m-d` with a four-character `y` and two-character `m` and `d` sit at fixed places. */
  lemma DashedSlices(y: string, m: string, dd: string)
    requires |y| == 4 && |m| == 2 && |dd| == 2
    ensures var s := y + "-" + m + "-" + dd;
      && |s| == 10 && s[4] == '-' && s[7] == '-'
      && s[..4] == y && s[5..7] == m && s[8..] == dd
  {
  }

  /** Two dates with four-digit years are written the same only when they are the same date. */
  lemma FormatDateInjective(a: Day, b: Day)
    requires Calendar(a) && 1000 <= a.year <= 9999
    requires Calendar(b) && 1000 <= b.year <= 9999
    requires FormatDate(a) == FormatDate(b)
    ensures a == b
  {
    FormatDateFields(a);
    FormatDateFields(b);
  }

  /** `formatDate` writes only digits and dashes, so its output never holds `&` or `=`. */
  lemma FormatDateCharacters(d: Day)
    ensures forall i :: 0 <= i < |FormatDate(d)| ==> IsDigit(FormatDate(d)[i]) || FormatDate(d)[i] == '-'
  {
    var y, m, dd := IntToString(d.year), PadStart2(IntToString(d.month)), PadStart2(IntToString(d.day));
    PartDigitsOrDashes(d.year);
    PartDigitsOrDashes(d.month);
    PartDigitsOrDashes(d.day);
    assert DigitsOrDashes("-");
    ConcatDigitsOrDashes(y, "-");
    ConcatDigitsOrDashes(y + "-", m);
    ConcatDigitsOrDashes(y + "-" + m, "-");
    ConcatDigitsOrDashes(y + "-" + m + "-", dd);
    assert DigitsOrDashes(FormatDate(d));
  }

  lemma PartDigitsOrDashes(n: int)
    ensures DigitsOrDashes(IntToString(n)) && DigitsOrDashes(PadStart2(IntToString(n)))
  {
    DigitsOrDash(n);
  }

  predicate DigitsOrDashes(s: string)
  {
    forall i :: 0 <= i < |s| ==> IsDigit(s[i]) || s[i] == '-'
  }

  lemma ConcatDigitsOrDashes(a: string, b: string)
    requires DigitsOrDashes(a) && DigitsOrDashes(b)
    ensures DigitsOrDashes(a + b)
  {
    forall i | 0 <= i < |a + b|
      ensures IsDigit((a + b)[i]) || (a + b)[i] == '-'
    {
      if i < |a| {
        assert (a + b)[i] == a[i];
      } else {
        assert (a + b)[i] == b[i - |a|];
      }
    }
  }

  lemma DigitsOrDash(n: int)
    ensures forall i :: 0 <= i < |IntToString(n)| ==> IsDigit(IntToString(n)[i]) || IntToString(n)[i] == '-'
    ensures forall i :: 0 <= i < |PadStart2(IntToString(n))| ==> IsDigit(PadStart2(IntToString(n))[i]) || PadStart2(IntToString(n))[i] == '-'
  {
    if n < 0 {
      assert IntToString(n) == "-" + NatToString(-n);
    }
  }

  // --------------------------------------------------- getDefaultDateRange

  /** A date range as the picker holds it: either end may be missing. */
  datatype DateRange = DateRange(from: Option<Day>, to: Option<Day>)

  /** `getDefaultDateRange()`, with `now` the clock's day: from the first day of the previous month, to today. */
  function DefaultDateRange(now: Day): DateRange
  {
    DateRange(Some(MakeDate(now.year, (now.month - 1) - 1, 1)), Some(now))
  }

  /** Whether day `a` comes before day `b`. */
  predicate Before(a: Day, b: Day)
  {
    a.year < b.year || (a.year == b.year && (a.month < b.month || (a.month == b.month && a.day < b.day)))
  }

  /**
   * The default range starts on day 1 of the month before today's, January
   * going back to December of the previous year, and ends today; so it is
   * never empty.
   */
  lemma DefaultDateRangeBounds(now: Day)
    requires Calendar(now) && !(0 <= now.year <= 99)
    ensures var range := DefaultDateRange(now);
      && range.from == Some(if now.month == 1 then Day(now.year - 1, 12, 1) else Day(now.year, now.month - 1, 1))
      && range.to == Some(now)
      && Before(range.from.value, now)
  {
    if now.month == 1 {
      assert MakeDate(now.year, -1, 1) == Roll(now.year - 1, 12, 1);
      RollWithin(now.year - 1, 12, 1);
    } else {
      MakeDateMonth(now.year, now.month - 1, 1);
      RollWithin(now.year, now.month - 1, 1);
    }
  }

  // ---------------------------------------------------------------- URLs

  const AVATAR_PREFIX: string := "https://ui-avatars.com/api/?name="
  const AVATAR_SUFFIX: string := "&background=random&color=fff&size=128"

  /** `generateAvatarUrl(name)`; `encode` stands for `encodeURIComponent`. */
  function AvatarUrl(name: string, encode: string -> string): string
  {
    if name == "" then "" else AVATAR_PREFIX + encode(name) + AVATAR_SUFFIX
  }

  /**
   * No name gives no URL; a name gives the fixed prefix, the encoded name and
   * the fixed suffix, so the encoded name can be read back from the URL.
   */
  lemma AvatarUrlParts(name: string, encode: string -> string)
    ensures AvatarUrl(name, encode) == "" <==> name == ""
    ensures name != "" ==>
      var url := AvatarUrl(name, encode);
      && |url| == |AVATAR_PREFIX| + |encode(name)| + |AVATAR_SUFFIX|
      && url[..|AVATAR_PREFIX|] == AVATAR_PREFIX
      && url[|AVATAR_PREFIX|..|url| - |AVATAR_SUFFIX|] == encode(name)
      && url[|url| - |AVATAR_SUFFIX|..] == AVATAR_SUFFIX
  {
    if name != "" {
      var url := AvatarUrl(name, encode);
      assert url == AVATAR_PREFIX + encode(name) + AVATAR_SUFFIX;
    }
  }

  /** With an encoder that keeps names apart, two names never share an avatar URL. */
  lemma AvatarUrlInjective(a: string, b: string, encode: string -> string)
    requires encode(a) == encode(b) ==> a == b
    requires AvatarUrl(a, encode) == AvatarUrl(b, encode)
    ensures a == b
  {
    AvatarUrlParts(a, encode);
    AvatarUrlParts(b, encode);
  }

  const FILES_PATH: string := "/static/files/"

  /** `${process.env.NEXT_PUBLIC_API_URL}`: a missing variable prints as "undefined". */
  function ApiBase(apiUrl: Option<string>): string
  {
    if apiUrl.Some? then apiUrl.value else "undefined"
  }

  /** `getFileUrl(file)`: nothing for no file, else the file under the API's static files. */
  function FileUrl(file: string, apiUrl: Option<string>): Option<string>
  {
    if file == "" then None else Some(ApiBase(apiUrl) + FILES_PATH + file)
  }

  /** A file gives a URL iff it is named, and the URL is the files path of the API with the name at its end. */
  lemma FileUrlParts(file: string, apiUrl: Option<string>)
    ensures FileUrl(file, apiUrl).Some? <==> file != ""
    ensures file != "" ==>
      var url, base := FileUrl(file, apiUrl).value, ApiBase(apiUrl) + FILES_PATH;
      && |url| == |base| + |file|
      && url[..|base|] == base
      && url[|base|..] == file
  {
  }

  /** Different files of the same API have different URLs. */
  lemma FileUrlInjective(a: string, b: string, apiUrl: Option<string>)
    requires FileUrl(a, apiUrl) == FileUrl(b, apiUrl)
    ensures a == b
  {
    FileUrlParts(a, apiUrl);
    FileUrlParts(b, apiUrl);
  }
}
