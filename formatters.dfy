/**
 * The two display masks of src/utils/formatters.ts. Each is a single,
 * non-global regular-expression replacement: the leftmost run of eleven
 * ASCII digits is rewritten, everything else is left as it is.
 */
module Formatters {
  import opened Wrappers
  import opened Text

  /** Both patterns, `\d{3}\d{3}\d{3}\d{2}` and `\d{2}\d{5}\d{4}`, match exactly eleven digits. */
  const RunLength: nat := 11

  /** Eleven digits start at position `i` of `s`. */
  predicate DigitRunAt(s: string, i: nat) {
    i + RunLength <= |s| && forall k :: i <= k < i + RunLength ==> IsDigit(s[k])
  }

  /** The position where a regular-expression search that starts at `from` finds its match. */
  function FirstDigitRun(s: string, from: nat): (r: Option<nat>)
    requires from <= |s|
    decreases |s| - from
    ensures r.Some? ==> from <= r.value && DigitRunAt(s, r.value)
    ensures r.Some? ==> forall j :: from <= j < r.value ==> !DigitRunAt(s, j)
    ensures r.None? ==> forall j :: from <= j <= |s| ==> !DigitRunAt(s, j)
  {
    if from + RunLength > |s| then None
    else if DigitRunAt(s, from) then Some(from)
    else FirstDigitRun(s, from + 1)
  }

  /** `"$1.$2.$3-$4"` applied to the eleven matched digits. */
  function CpfMask(d: string): (m: string)
    requires |d| == RunLength
  {
    d[..3] + "." + d[3..6] + "." + d[6..9] + "-" + d[9..]
  }

  /** `"($1) $2-$3"` applied to the eleven matched digits. */
  function PhoneMask(d: string): (m: string)
    requires |d| == RunLength
  {
    "(" + d[..2] + ") " + d[2..7] + "-" + d[7..]
  }

  /** The shape "ddd.ddd.ddd-dd". */
  predicate CpfShaped(r: string) {
    && |r| == 14
    && r[3] == '.' && r[7] == '.' && r[11] == '-'
    && forall k :: 0 <= k < 14 && k != 3 && k != 7 && k != 11 ==> IsDigit(r[k])
  }

  /** The shape "(dd) ddddd-dddd". */
  predicate PhoneShaped(r: string) {
    && |r| == 15
    && r[0] == '(' && r[3] == ')' && r[4] == ' ' && r[10] == '-'
    && forall k :: 0 <= k < 15 && k !in {0, 3, 4, 10} ==> IsDigit(r[k])
  }

  /** formatCPF: empty stays empty, otherwise the leftmost eleven digits get the CPF mask. */
  function FormatCpf(cpf: string): (r: string)
    ensures cpf == "" ==> r == ""
    ensures FirstDigitRun(cpf, 0).None? ==> r == cpf
    ensures |r| == |cpf| || |r| == |cpf| + 3
  {
    if cpf == "" then ""
    else match FirstDigitRun(cpf, 0)
      case None => cpf
      case Some(i) => cpf[..i] + CpfMask(cpf[i..i + RunLength]) + cpf[i + RunLength..]
  }

  /** formatPhone: empty stays empty, otherwise the leftmost eleven digits get the phone mask. */
  function FormatPhone(phone: string): (r: string)
    ensures phone == "" ==> r == ""
    ensures FirstDigitRun(phone, 0).None? ==> r == phone
    ensures |r| == |phone| || |r| == |phone| + 4
  {
    if phone == "" then ""
    else match FirstDigitRun(phone, 0)
      case None => phone
      case Some(i) => phone[..i] + PhoneMask(phone[i..i + RunLength]) + phone[i + RunLength..]
  }

  // ---------------------------------------------------------------------------
  // Properties
  // ---------------------------------------------------------------------------

  /** Eleven digits on their own become "ddd.ddd.ddd-dd" and keep their order. */
  lemma FormatCpfOfDigits(d: string)
    requires |d| == RunLength && AllDigits(d)
    ensures FormatCpf(d) == CpfMask(d)
    ensures CpfShaped(FormatCpf(d))
    ensures DigitsOnly(FormatCpf(d)) == d
  {
    assert DigitRunAt(d, 0);
    assert d[..0] == [] && d[0..RunLength] == d && d[RunLength..] == [];
    CpfMaskDigits(d);
  }

  /** Eleven digits on their own become "(dd) ddddd-dddd" and keep their order. */
  lemma FormatPhoneOfDigits(d: string)
    requires |d| == RunLength && AllDigits(d)
    ensures FormatPhone(d) == PhoneMask(d)
    ensures PhoneShaped(FormatPhone(d))
    ensures DigitsOnly(FormatPhone(d)) == d
  {
    assert DigitRunAt(d, 0);
    assert d[..0] == [] && d[0..RunLength] == d && d[RunLength..] == [];
    PhoneMaskDigits(d);
  }

  /** The CPF mask puts its punctuation at 3, 7 and 11 and digits everywhere else. */
  lemma CpfMaskShaped(d: string)
    requires |d| == RunLength && AllDigits(d)
    ensures CpfShaped(CpfMask(d))
  {
    var m := CpfMask(d);
    forall k | 0 <= k < 14 && k != 3 && k != 7 && k != 11 ensures IsDigit(m[k]) {
      assert m[k] == d[if k < 3 then k else if k < 7 then k - 1 else if k < 11 then k - 2 else k - 3];
    }
  }

  lemma CpfMaskDigits(d: string)
    requires |d| == RunLength && AllDigits(d)
    ensures CpfShaped(CpfMask(d))
    ensures DigitsOnly(CpfMask(d)) == d
  {
    CpfMaskShaped(d);
    var p1, p2, p3, p4 := d[..3], d[3..6], d[6..9], d[9..];
    assert p1 + (p2 + (p3 + p4)) == d;
    assert AllDigits(p1) && AllDigits(p2) && AllDigits(p3) && AllDigits(p4);
    var t3 := p3 + (['-'] + p4);
    var t2 := p2 + (['.'] + t3);
    var t1 := p1 + (['.'] + t2);
    assert CpfMask(d) == t1;
    DigitsOnlyDropNonDigit('-', p4);
    DigitsOnlyKeepDigits(p3, ['-'] + p4);
    DigitsOnlyDropNonDigit('.', t3);
    DigitsOnlyKeepDigits(p2, ['.'] + t3);
    DigitsOnlyDropNonDigit('.', t2);
    DigitsOnlyKeepDigits(p1, ['.'] + t2);
  }

  /** The phone mask puts its punctuation at 0, 3, 4 and 10 and digits everywhere else. */
  lemma PhoneMaskShaped(d: string)
    requires |d| == RunLength && AllDigits(d)
    ensures PhoneShaped(PhoneMask(d))
  {
    var m := PhoneMask(d);
    forall k | 0 <= k < 15 && k !in {0, 3, 4, 10} ensures IsDigit(m[k]) {
      assert m[k] == d[if k < 3 then k - 1 else if k < 10 then k - 3 else k - 4];
    }
  }

  lemma PhoneMaskDigits(d: string)
    requires |d| == RunLength && AllDigits(d)
    ensures PhoneShaped(PhoneMask(d))
    ensures DigitsOnly(PhoneMask(d)) == d
  {
    PhoneMaskShaped(d);
    var p1, p2, p3 := d[..2], d[2..7], d[7..];
    assert p1 + (p2 + p3) == d;
    assert AllDigits(p1) && AllDigits(p2) && AllDigits(p3);
    var t3 := p2 + (['-'] + p3);
    var t2 := [')'] + ([' '] + t3);
    var t1 := ['('] + (p1 + t2);
    assert PhoneMask(d) == t1;
    DigitsOnlyDropNonDigit('-', p3);
    DigitsOnlyKeepDigits(p2, ['-'] + p3);
    DigitsOnlyDropNonDigit(' ', t3);
    DigitsOnlyDropNonDigit(')', [' '] + t3);
    DigitsOnlyKeepDigits(p1, t2);
    DigitsOnlyDropNonDigit('(', p1 + t2);
  }

  /** Only the leftmost run is rewritten: the text before and after it is untouched. */
  lemma FormatCpfRewritesFirstRun(s: string, i: nat)
    requires s != "" && FirstDigitRun(s, 0) == Some(i)
    ensures forall j :: 0 <= j < i ==> !DigitRunAt(s, j)
    ensures |FormatCpf(s)| == |s| + 3
    ensures FormatCpf(s)[..i] == s[..i]
    ensures CpfShaped(FormatCpf(s)[i..i + 14])
    ensures FormatCpf(s)[i + 14..] == s[i + RunLength..]
  {
    var d := s[i..i + RunLength];
    RunIsDigits(s, i);
    CpfMaskDigits(d);
    var r := FormatCpf(s);
    assert r == s[..i] + CpfMask(d) + s[i + RunLength..];
    assert r[i..i + 14] == CpfMask(d);
  }

  /** Only the leftmost run is rewritten: the text before and after it is untouched. */
  lemma FormatPhoneRewritesFirstRun(s: string, i: nat)
    requires s != "" && FirstDigitRun(s, 0) == Some(i)
    ensures forall j :: 0 <= j < i ==> !DigitRunAt(s, j)
    ensures |FormatPhone(s)| == |s| + 4
    ensures FormatPhone(s)[..i] == s[..i]
    ensures PhoneShaped(FormatPhone(s)[i..i + 15])
    ensures FormatPhone(s)[i + 15..] == s[i + RunLength..]
  {
    var d := s[i..i + RunLength];
    RunIsDigits(s, i);
    PhoneMaskDigits(d);
    var r := FormatPhone(s);
    assert r == s[..i] + PhoneMask(d) + s[i + RunLength..];
    assert r[i..i + 15] == PhoneMask(d);
  }

  /** The eleven characters of a digit run are digits. */
  lemma RunIsDigits(s: string, i: nat)
    requires DigitRunAt(s, i)
    ensures AllDigits(s[i..i + RunLength])
  {
    var d := s[i..i + RunLength];
    forall k | 0 <= k < |d| ensures IsDigit(d[k]) {
      assert d[k] == s[i + k];
    }
  }

  /** Replacing a digit run by any text with the same digits keeps the digits of the whole. */
  lemma ReplaceRunKeepsDigits(s: string, i: nat, m: string)
    requires DigitRunAt(s, i)
    requires DigitsOnly(m) == s[i..i + RunLength]
    ensures DigitsOnly(s[..i] + m + s[i + RunLength..]) == DigitsOnly(s)
  {
    var before, d, after := s[..i], s[i..i + RunLength], s[i + RunLength..];
    RunIsDigits(s, i);
    assert before + d + after == s;
    DigitsOnlyAppend(before + m, after);
    DigitsOnlyAppend(before, m);
    DigitsOnlyAppend(before + d, after);
    DigitsOnlyAppend(before, d);
  }

  /** Formatting only inserts punctuation: the digits of any input survive, in order. */
  lemma FormatCpfKeepsDigits(s: string)
    ensures DigitsOnly(FormatCpf(s)) == DigitsOnly(s)
  {
    if s != "" {
      match FirstDigitRun(s, 0)
      case None =>
      case Some(i) =>
        RunIsDigits(s, i);
        CpfMaskDigits(s[i..i + RunLength]);
        ReplaceRunKeepsDigits(s, i, CpfMask(s[i..i + RunLength]));
    }
  }

  /** Formatting only inserts punctuation: the digits of any input survive, in order. */
  lemma FormatPhoneKeepsDigits(s: string)
    ensures DigitsOnly(FormatPhone(s)) == DigitsOnly(s)
  {
    if s != "" {
      match FirstDigitRun(s, 0)
      case None =>
      case Some(i) =>
        RunIsDigits(s, i);
        PhoneMaskDigits(s[i..i + RunLength]);
        ReplaceRunKeepsDigits(s, i, PhoneMask(s[i..i + RunLength]));
    }
  }

  /** A formatted CPF holds no run of eleven digits, so formatting it again changes nothing. */
  lemma FormatCpfIdempotentOnDigits(d: string)
    requires |d| == RunLength && AllDigits(d)
    ensures FormatCpf(FormatCpf(d)) == FormatCpf(d)
  {
    FormatCpfOfDigits(d);
    var r := FormatCpf(d);
    assert !IsDigit(r[3]) && !IsDigit(r[7]) && !IsDigit(r[11]);
  }
}
