/**
 * Normalisers of `src/utils.js`: digit extraction, CPF (the 11-digit Brazilian
 * taxpayer number), mobile phone numbers and person names.
 */
module Utils {
  import opened JsString

  /** `onlyDigits`: `String(value).replace(/\D/g, "")`. */
  function OnlyDigits(s: string): (r: string)
    ensures AllDigits(r) && |r| <= |s|
    ensures r == [] <==> forall i :: 0 <= i < |s| ==> !IsDigit(s[i])
  {
    if s == [] then ""
    else if IsDigit(s[0]) then [s[0]] + OnlyDigits(s[1..])
    else OnlyDigits(s[1..])
  }

  /** Digit extraction distributes over concatenation: together with its value on one character, this fixes it. */
  lemma {:induction false} OnlyDigitsAppend(a: string, b: string)
    ensures OnlyDigits(a + b) == OnlyDigits(a) + OnlyDigits(b)
  {
    if a != [] {
      assert (a + b)[0] == a[0];
      assert (a + b)[1..] == a[1..] + b;
      OnlyDigitsAppend(a[1..], b);
    } else {
      assert a + b == b;
    }
  }

  /** A string of digits is its own digit extraction. */
  lemma {:induction false} OnlyDigitsOfDigits(s: string)
    requires AllDigits(s)
    ensures OnlyDigits(s) == s
  {
    if s != [] {
      OnlyDigitsOfDigits(s[1..]);
    }
  }

  /**
   * `normalizeCpf`: empty when there are no digits or more than 11 of them,
   * otherwise the digits left-padded with '0' to 11 characters.
   */
  function NormalizeCpf(value: string): (r: string)
    ensures var d := OnlyDigits(value);
      && (r == "" <==> d == "" || |d| > 11)
      && (r != "" ==> |r| == 11 && AllDigits(r) && r[11 - |d|..] == d
                      && forall i :: 0 <= i < 11 - |d| ==> r[i] == '0')
  {
    var digits := OnlyDigits(value);
    if digits == "" || |digits| > 11 then "" else PadStart(digits, 11, '0')
  }

  /** Normalising a CPF twice gives the same as normalising it once. */
  lemma NormalizeCpfIdempotent(value: string)
    ensures NormalizeCpf(NormalizeCpf(value)) == NormalizeCpf(value)
  {
    var r := NormalizeCpf(value);
    if r != "" {
      OnlyDigitsOfDigits(r);
    }
  }

  /**
   * `normalizeTelefone`: the digits, with a '9' inserted after the two-digit
   * area code when there are exactly 10 of them; kept only when the result has
   * 11 digits whose third is '9', otherwise empty.
   */
  function NormalizeTelefone(value: string): (r: string)
    ensures r == "" || (|r| == 11 && AllDigits(r) && r[2] == '9')
    ensures var d := OnlyDigits(value);
      && (|d| == 10 ==> r == d[..2] + "9" + d[2..])
      && (|d| == 11 ==> r == (if d[2] == '9' then d else ""))
      && (|d| != 10 && |d| != 11 ==> r == "")
  {
    var digits := OnlyDigits(value);
    if digits == "" then ""
    else
      var widened := if |digits| == 10 then digits[..2] + "9" + digits[2..] else digits;
      if |widened| != 11 then ""
      else if widened[2] != '9' then ""
      else widened
  }

  /** A normalised phone number normalises to itself. */
  lemma NormalizeTelefoneIdempotent(value: string)
    ensures NormalizeTelefone(NormalizeTelefone(value)) == NormalizeTelefone(value)
  {
    var r := NormalizeTelefone(value);
    if r != "" {
      OnlyDigitsOfDigits(r);
    }
  }

  /** Combining diacritical marks, the range `[̀-ͯ]`. */
  predicate IsCombiningMark(c: char) {
    '\U{0300}' <= c <= '\U{036F}'
  }

  /** `.replace(/[̀-ͯ]/g, "")`. */
  function StripMarks(s: string): (r: string)
    ensures |r| <= |s|
    ensures forall i :: 0 <= i < |r| ==> !IsCombiningMark(r[i])
    ensures (forall i :: 0 <= i < |s| ==> !IsCombiningMark(s[i])) ==> r == s
    ensures |s| == 1 && IsCombiningMark(s[0]) ==> r == []
  {
    if s == [] then ""
    else if IsCombiningMark(s[0]) then StripMarks(s[1..])
    else [s[0]] + StripMarks(s[1..])
  }

  /**
   * The marks are removed piece by piece: stripping a text is stripping its
   * two halves. With the single-character case (a mark goes, anything else
   * stays) this pins every character of the result.
   */
  lemma {:induction false} StripMarksAppend(a: string, b: string)
    ensures StripMarks(a + b) == StripMarks(a) + StripMarks(b)
  {
    if a == [] {
      assert a + b == b;
    } else {
      assert (a + b)[1..] == a[1..] + b;
      StripMarksAppend(a[1..], b);
    }
  }

  /**
   * A left-to-right scan of the text: a white-space character right after
   * another is dropped, the first of a run becomes one `' '`, and every
   * other character is copied. `afterSpace` says whether the previous
   * character was white space.
   */
  function CollapseScan(s: string, afterSpace: bool): string {
    if s == [] then ""
    else if IsSpace(s[0]) then (if afterSpace then "" else " ") + CollapseScan(s[1..], true)
    else [s[0]] + CollapseScan(s[1..], false)
  }

  /** After a white-space character, the scan drops the spaces that follow and goes on as at a fresh start. */
  lemma {:induction false} CollapseScanAfterSpace(s: string)
    ensures CollapseScan(s, true) == CollapseScan(TrimStart(s), false)
  {
    if s != [] && IsSpace(s[0]) {
      CollapseScanAfterSpace(s[1..]);
    }
  }

  /** `CollapseSpaces` is that scan: non-space characters are kept in order, and each run of white space becomes one `' '`. */
  lemma {:induction false} CollapseSpacesIsScan(s: string)
    ensures CollapseSpaces(s) == CollapseScan(s, false)
    decreases |s|
  {
    if s != [] {
      if IsSpace(s[0]) {
        TrimStartShape(s[1..]);
        CollapseSpacesIsScan(TrimStart(s[1..]));
        CollapseScanAfterSpace(s[1..]);
      } else {
        CollapseSpacesIsScan(s[1..]);
      }
    }
  }

  /** `.replace(/\s+/g, " ")`: every maximal run of white space becomes one space. */
  function CollapseSpaces(s: string): (r: string)
    ensures NoAdjacentSpaces(r)
    ensures r == [] <==> s == []
    ensures r != [] ==> (IsSpace(r[0]) <==> IsSpace(s[0]))
    decreases |s|
  {
    if s == [] then ""
    else if IsSpace(s[0]) then
      TrimStartShape(s[1..]);
      var rest := CollapseSpaces(TrimStart(s[1..]));
      assert rest != [] ==> !IsSpace(rest[0]);
      [' '] + rest
    else
      var rest := CollapseSpaces(s[1..]);
      [s[0]] + rest
  }

  /**
   * `normalizeNome` after Unicode decomposition: combining marks removed,
   * white-space runs collapsed to one space, trimmed and upper-cased.
   */
  function NormalizeNome(decomposed: string): string {
    ToUpper(Trim(CollapseSpaces(StripMarks(decomposed))))
  }

  /** A normalised name has no leading or trailing white space and no run of two or more. */
  lemma NormalizeNomeShape(decomposed: string)
    ensures var r := NormalizeNome(decomposed);
      && (r == [] || (!IsSpace(r[0]) && !IsSpace(r[|r| - 1])))
      && NoAdjacentSpaces(r)
  {
    var c := CollapseSpaces(StripMarks(decomposed));
    var t := Trim(c);
    TrimShape(c);
    TrimKeepsNoAdjacentSpaces(c);
    ToUpperKeepsNoAdjacentSpaces(t);
  }
}
