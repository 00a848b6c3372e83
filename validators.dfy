/** The stand-alone field validators of src/utils/validators.ts. */
module Validators {
  import opened Text
  import Formatters

  // ---------------------------------------------------------------------------
  // validateEmail: /^[^\s@]+@[^\s@]+\.[^\s@]+$/
  // ---------------------------------------------------------------------------

  /** The character class `[^\s@]+` over a whole string (the `+` is checked by the caller). */
  predicate Plain(s: string) {
    forall k :: 0 <= k < |s| ==> s[k] != '@' && !IsSpace(s[k])
  }

  /** `s` splits as local + "@" + host + "." + tld with three non-empty plain parts at `at` and `dot`. */
  predicate EmailSplitAt(s: string, at: int, dot: int)
    requires 0 < at && at + 1 < dot < |s| - 1
  {
    s[at] == '@' && s[dot] == '.' && Plain(s[..at]) && Plain(s[at + 1..dot]) && Plain(s[dot + 1..])
  }

  /** validateEmail: the anchored pattern matches, for some choice of the '@' and of the '.' after it. */
  function ValidateEmail(email: string): (ok: bool)
    ensures ok ==> '@' in email && '.' in email
  {
    exists at, dot | 0 < at && at + 1 < dot < |email| - 1 :: EmailSplitAt(email, at, dot)
  }

  /** The same language described field by field. */
  predicate WellFormedEmail(s: string) {
    exists at | 0 < at < |s| ::
      && s[at] == '@'
      && (forall k :: 0 <= k < |s| && s[k] == '@' ==> k == at)
      && (forall k :: 0 <= k < |s| ==> !IsSpace(s[k]))
      && (exists dot :: at + 1 < dot < |s| - 1 && s[dot] == '.')
  }

  /**
   * validateEmail accepts exactly the strings with one '@', no white space,
   * a non-empty part before the '@', and a '.' after it that is neither the
   * first nor the last character of the domain.
   */
  lemma ValidateEmailCharacterised(s: string)
    ensures ValidateEmail(s) <==> WellFormedEmail(s)
  {
    if ValidateEmail(s) {
      var at, dot :| 0 < at && at + 1 < dot < |s| - 1 && EmailSplitAt(s, at, dot);
      forall k | 0 <= k < |s| ensures s[k] != '@' || k == at {
        PlainAt(s, at, dot, k);
      }
      forall k | 0 <= k < |s| ensures !IsSpace(s[k]) {
        PlainAt(s, at, dot, k);
      }
    }
    if WellFormedEmail(s) {
      var at :| 0 < at < |s| && s[at] == '@'
        && (forall k :: 0 <= k < |s| && s[k] == '@' ==> k == at)
        && (forall k :: 0 <= k < |s| ==> !IsSpace(s[k]))
        && (exists dot :: at + 1 < dot < |s| - 1 && s[dot] == '.');
      var dot :| at + 1 < dot < |s| - 1 && s[dot] == '.';
      assert Plain(s[..at]);
      var host, tld := s[at + 1..dot], s[dot + 1..];
      assert Plain(host) by {
        forall k | 0 <= k < |host| ensures host[k] != '@' && !IsSpace(host[k]) {
          assert host[k] == s[at + 1 + k];
        }
      }
      assert Plain(tld) by {
        forall k | 0 <= k < |tld| ensures tld[k] != '@' && !IsSpace(tld[k]) {
          assert tld[k] == s[dot + 1 + k];
        }
      }
      assert EmailSplitAt(s, at, dot);
    }
  }

  /** What a match at (`at`, `dot`) says about one position of `s`. */
  lemma PlainAt(s: string, at: int, dot: int, k: int)
    requires 0 < at && at + 1 < dot < |s| - 1 && EmailSplitAt(s, at, dot)
    requires 0 <= k < |s|
    ensures !IsSpace(s[k])
    ensures s[k] == '@' <==> k == at
  {
    if k < at {
      assert s[..at][k] == s[k];
    } else if at < k < dot {
      assert s[at + 1..dot][k - at - 1] == s[k];
    } else if dot < k {
      assert s[dot + 1..][k - dot - 1] == s[k];
    }
  }

  // ---------------------------------------------------------------------------
  // validatePhone, validateRequired, validateMinLength, validateMaxLength
  // ---------------------------------------------------------------------------

  /** validatePhone: ten or eleven ASCII digits, whatever else the string holds. */
  function ValidatePhone(phone: string): (ok: bool)
    ensures ok ==> |phone| >= 10
    ensures AllDigits(phone) ==> (ok <==> 10 <= |phone| <= 11)
  {
    var digits := DigitsOnly(phone);
    |digits| >= 10 && |digits| <= 11
  }

  /** Applying the phone mask never changes what validatePhone says. */
  lemma ValidatePhoneIgnoresMask(phone: string)
    ensures ValidatePhone(Formatters.FormatPhone(phone)) == ValidatePhone(phone)
  {
    Formatters.FormatPhoneKeepsDigits(phone);
  }

  /** Only the digits count: "11 98765 4321" and "11\t987654321" are judged as "11987654321". */
  lemma ValidatePhoneSeesOnlyDigits(phone: string)
    ensures ValidatePhone(phone) == ValidatePhone(DigitsOnly(phone))
  {
    DigitsOnlyIdempotent(phone);
  }

  /** validateRequired: some character is not white space. */
  function ValidateRequired(value: string): (ok: bool)
    ensures ok <==> exists i :: 0 <= i < |value| && !IsSpace(value[i])
  {
    |Trim(value)| > 0
  }

  /** Trimming leaves an unpadded string as it is. */
  lemma UnpaddedTrim(s: string)
    ensures Unpadded(s) ==> Trim(s) == s
  {
    if Unpadded(s) && s != [] {
      assert TrimStart(s) == s;
      assert TrimEnd(s) == s;
    }
  }

  /** validateMinLength: compares the trimmed length with `>=`. */
  function ValidateMinLength(value: string, min: int): (ok: bool)
    ensures min <= 0 ==> ok
    ensures ok ==> |value| >= min
    ensures min == 1 ==> ok == ValidateRequired(value)
    ensures Unpadded(value) ==> (ok <==> |value| >= min)
  {
    UnpaddedTrim(value);
    |Trim(value)| >= min
  }

  /** validateMaxLength: compares the trimmed length with `<=`. */
  function ValidateMaxLength(value: string, max: int): (ok: bool)
    ensures |value| <= max ==> ok
    ensures max < 0 ==> !ok
    ensures (forall i :: 0 <= i < |value| ==> IsSpace(value[i])) ==> (ok <==> max >= 0)
    ensures Unpadded(value) ==> (ok <==> |value| <= max)
  {
    UnpaddedTrim(value);
    |Trim(value)| <= max
  }

  /** White space around the value is not counted: " abc " is as long as "abc". */
  lemma MinLengthOfPadded(p: string, v: string, q: string, min: int)
    requires forall k :: 0 <= k < |p| ==> IsSpace(p[k])
    requires forall k :: 0 <= k < |q| ==> IsSpace(q[k])
    requires Unpadded(v)
    ensures ValidateMinLength(p + v + q, min) <==> |v| >= min
  {
    TrimPadded(p, v, q);
  }

  /** White space around the value is not counted: " abc " is as long as "abc". */
  lemma MaxLengthOfPadded(p: string, v: string, q: string, max: int)
    requires forall k :: 0 <= k < |p| ==> IsSpace(p[k])
    requires forall k :: 0 <= k < |q| ==> IsSpace(q[k])
    requires Unpadded(v)
    ensures ValidateMaxLength(p + v + q, max) <==> |v| <= max
  {
    TrimPadded(p, v, q);
  }

  // ---------------------------------------------------------------------------
  // validateAge
  // ---------------------------------------------------------------------------

  /** A calendar date as `getFullYear`, `getMonth` and `getDate` report it. */
  datatype Date = Date(year: int, month: int, day: int)

  /** The default of the `minAge` parameter. */
  const DefaultMinAge := 18

  /** Chronological order of dates, compared year, then month, then day. */
  predicate OnOrBefore(a: Date, b: Date) {
    a.year < b.year
    || (a.year == b.year && (a.month < b.month || (a.month == b.month && a.day <= b.day)))
  }

  /** The same day and month, `years` later. */
  function Anniversary(d: Date, years: int): (r: Date)
    ensures r.year - d.year == years && r.month == d.month && r.day == d.day
  {
    Date(d.year + years, d.month, d.day)
  }

  /**
   * validateAge with "today" passed in: the year difference, less one when
   * this year's birthday is still ahead, is at least `minAge`. Equivalently,
   * the `minAge`-th birthday has already come.
   */
  function ValidateAge(birth: Date, today: Date, minAge: int): (ok: bool)
    ensures ok <==> OnOrBefore(Anniversary(birth, minAge), today)
  {
    var age := today.year - birth.year;
    var monthDiff := today.month - birth.month;
    if monthDiff < 0 || (monthDiff == 0 && today.day < birth.day) then age - 1 >= minAge
    else age >= minAge
  }

  /** validateAge called without `minAge`. */
  function ValidateAdult(birth: Date, today: Date): (ok: bool)
    ensures ok <==> OnOrBefore(Anniversary(birth, 18), today)
  {
    ValidateAge(birth, today, DefaultMinAge)
  }
}
