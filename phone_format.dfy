/** `formatPhoneNumber`: keep the digits of what was typed, cut them to the region's
    length and re-insert the region's separators. */
module PhoneFormat {
  import opened Util
  import opened PhoneRegions

  /** `value.replace(/\D/g, '')`: the digits of `s`, in order. */
  function Digits(s: string): (d: string)
    ensures AllDigits(d) && |d| <= |s|
  {
    if s == [] then []
    else if IsDigit(s[0]) then [s[0]] + Digits(s[1..])
    else Digits(s[1..])
  }

  /** `s.slice(start, end)` for non-negative bounds: both are clamped to the length. */
  function Slice(s: string, start: nat, end: nat): string {
    var a := Min(start, |s|);
    var b := Min(end, |s|);
    if a < b then s[a..b] else []
  }

  /** `s.slice(start)`. */
  function SliceFrom(s: string, start: nat): string {
    s[Min(start, |s|)..]
  }

  /** The arms of the `switch (regionCode)`; region codes that share an arm share a rule. */
  datatype Rule =
    | UsCa | Br | Gb | Au | In | Cn | JpKr | Fr | DeNgEgMx | ItPhPkTr
    | EsSaAeNzThVnIlPlUaFi | ArZa | Sg | My | Id | KeNlBeSe | NoDk | BdRu | Default

  /** The `case` labels of the switch. */
  function RuleFor(code: string): Rule {
    match code
    case "US" => UsCa
    case "CA" => UsCa
    case "BR" => Br
    case "GB" => Gb
    case "AU" => Au
    case "IN" => In
    case "CN" => Cn
    case "JP" => JpKr
    case "KR" => JpKr
    case "FR" => Fr
    case "DE" => DeNgEgMx
    case "NG" => DeNgEgMx
    case "EG" => DeNgEgMx
    case "MX" => DeNgEgMx
    case "IT" => ItPhPkTr
    case "PH" => ItPhPkTr
    case "PK" => ItPhPkTr
    case "TR" => ItPhPkTr
    case "ES" => EsSaAeNzThVnIlPlUaFi
    case "SA" => EsSaAeNzThVnIlPlUaFi
    case "AE" => EsSaAeNzThVnIlPlUaFi
    case "NZ" => EsSaAeNzThVnIlPlUaFi
    case "TH" => EsSaAeNzThVnIlPlUaFi
    case "VN" => EsSaAeNzThVnIlPlUaFi
    case "IL" => EsSaAeNzThVnIlPlUaFi
    case "PL" => EsSaAeNzThVnIlPlUaFi
    case "UA" => EsSaAeNzThVnIlPlUaFi
    case "FI" => EsSaAeNzThVnIlPlUaFi
    case "AR" => ArZa
    case "ZA" => ArZa
    case "SG" => Sg
    case "MY" => My
    case "ID" => Id
    case "KE" => KeNlBeSe
    case "NL" => KeNlBeSe
    case "BE" => KeNlBeSe
    case "SE" => KeNlBeSe
    case "NO" => NoDk
    case "DK" => NoDk
    case "BD" => BdRu
    case "RU" => BdRu
    case _ => Default
  }

  /** The body of one arm of the switch applied to the limited digit string `d`. */
  function Grouped(rule: Rule, d: string): string {
    var n := |d|;
    match rule
    case UsCa =>
      if n <= 3 then d
      else if n <= 6 then "(" + Slice(d, 0, 3) + ") " + SliceFrom(d, 3)
      else "(" + Slice(d, 0, 3) + ") " + Slice(d, 3, 6) + "-" + Slice(d, 6, 10)
    case Br =>
      if n <= 2 then d
      else if n <= 7 then "(" + Slice(d, 0, 2) + ") " + SliceFrom(d, 2)
      else "(" + Slice(d, 0, 2) + ") " + Slice(d, 2, 7) + "-" + Slice(d, 7, 11)
    case Gb =>
      if n <= 4 then d
      else if n <= 7 then Slice(d, 0, 4) + " " + SliceFrom(d, 4)
      else Slice(d, 0, 4) + " " + Slice(d, 4, 7) + " " + Slice(d, 7, 10)
    case Au =>
      if n <= 3 then d
      else if n <= 6 then Slice(d, 0, 3) + " " + SliceFrom(d, 3)
      else Slice(d, 0, 3) + " " + Slice(d, 3, 6) + " " + Slice(d, 6, 9)
    case In =>
      if n <= 5 then d
      else Slice(d, 0, 5) + " " + Slice(d, 5, 10)
    case Cn =>
      if n <= 3 then d
      else if n <= 7 then Slice(d, 0, 3) + " " + SliceFrom(d, 3)
      else Slice(d, 0, 3) + " " + Slice(d, 3, 7) + " " + Slice(d, 7, 11)
    case JpKr =>
      if n <= 2 then d
      else if n <= 6 then Slice(d, 0, 2) + "-" + SliceFrom(d, 2)
      else Slice(d, 0, 2) + "-" + Slice(d, 2, 6) + "-" + Slice(d, 6, 10)
    case Fr =>
      if n <= 1 then d
      else if n <= 3 then Slice(d, 0, 1) + " " + SliceFrom(d, 1)
      else if n <= 5 then Slice(d, 0, 1) + " " + Slice(d, 1, 3) + " " + SliceFrom(d, 3)
      else if n <= 7 then Slice(d, 0, 1) + " " + Slice(d, 1, 3) + " " + Slice(d, 3, 5) + " " + SliceFrom(d, 5)
      else Slice(d, 0, 1) + " " + Slice(d, 1, 3) + " " + Slice(d, 3, 5) + " " + Slice(d, 5, 7) + " " + Slice(d, 7, 9)
    case DeNgEgMx =>
      if n <= 3 then d
      else Slice(d, 0, 3) + " " + SliceFrom(d, 3)
    case ItPhPkTr =>
      if n <= 3 then d
      else if n <= 6 then Slice(d, 0, 3) + " " + SliceFrom(d, 3)
      else Slice(d, 0, 3) + " " + Slice(d, 3, 6) + " " + SliceFrom(d, 6)
    case EsSaAeNzThVnIlPlUaFi =>
      if n <= 3 then d
      else if n <= 5 then Slice(d, 0, 3) + " " + SliceFrom(d, 3)
      else Slice(d, 0, 3) + " " + Slice(d, 3, 5) + " " + SliceFrom(d, 5)
    case ArZa =>
      if n <= 2 then d
      else Slice(d, 0, 2) + " " + SliceFrom(d, 2)
    case Sg =>
      if n <= 4 then d
      else Slice(d, 0, 4) + " " + Slice(d, 4, 8)
    case My =>
      if n <= 2 then d
      else if n <= 5 then Slice(d, 0, 2) + "-" + SliceFrom(d, 2)
      else Slice(d, 0, 2) + "-" + Slice(d, 2, 5) + " " + SliceFrom(d, 5)
    case Id =>
      if n <= 3 then d
      else if n <= 7 then Slice(d, 0, 3) + "-" + SliceFrom(d, 3)
      else Slice(d, 0, 3) + "-" + Slice(d, 3, 7) + "-" + Slice(d, 7, 11)
    case KeNlBeSe =>
      if n <= 3 then d
      else Slice(d, 0, 3) + " " + SliceFrom(d, 3)
    case NoDk =>
      if n <= 2 then d
      else if n <= 4 then Slice(d, 0, 2) + " " + SliceFrom(d, 2)
      else if n <= 6 then Slice(d, 0, 2) + " " + Slice(d, 2, 4) + " " + SliceFrom(d, 4)
      else Slice(d, 0, 2) + " " + Slice(d, 2, 4) + " " + Slice(d, 4, 6) + " " + Slice(d, 6, 8)
    case BdRu =>
      if n <= 4 then d
      else Slice(d, 0, 4) + "-" + SliceFrom(d, 4)
    case Default =>
      d
  }

  /** `cleaned.slice(0, region.digits)`: the first `n` digits of `value`. */
  function Limited(value: string, n: nat): string {
    Slice(Digits(value), 0, n)
  }

  /** `formatPhoneNumber(value, regionCode)`. */
  function FormatPhoneNumber(value: string, regionCode: string): string {
    match FindRegion(regionCode)
    case None => value
    case Some(region) => Grouped(RuleFor(regionCode), Limited(value, region.digits))
  }

  // ---------------------------------------------------------------------------
  // Digit preservation

  /** The characters the grouping rules insert. */
  predicate IsSeparator(c: char) {
    c == ' ' || c == '-' || c == '(' || c == ')'
  }

  /** How many digits the slices of an arm cover: an arm ending in a bounded slice drops
      whatever lies beyond it. */
  predicate Covers(rule: Rule, n: nat) {
    match rule
    case UsCa => n <= 10
    case Br => n <= 11
    case Gb => n <= 10
    case Au => n <= 9
    case In => n <= 10
    case Cn => n <= 11
    case JpKr => n <= 10
    case Fr => n <= 9
    case Sg => n <= 8
    case Id => n <= 11
    case NoDk => n <= 8
    case _ => true
  }

  lemma {:induction false} DigitsAppend(a: string, b: string)
    ensures Digits(a + b) == Digits(a) + Digits(b)
  {
    if a == [] {
      assert a + b == b;
    } else {
      assert (a + b)[1..] == a[1..] + b;
      DigitsAppend(a[1..], b);
    }
  }

  /** Removing non-digits from a digit string changes nothing. */
  lemma {:induction false} DigitsOfDigitString(d: string)
    requires AllDigits(d)
    ensures Digits(d) == d
  {
    if d != [] {
      DigitsOfDigitString(d[1..]);
    }
  }

  /** Adjacent slices join up, whatever the clamping does. */
  lemma SlicesJoin(d: string, a: nat, b: nat, c: nat)
    requires a <= b <= c
    ensures Slice(d, a, b) + Slice(d, b, c) == Slice(d, a, c)
    ensures Slice(d, a, b) + SliceFrom(d, b) == SliceFrom(d, a)
  {
  }

  /** Strings made only of separators. */
  predicate Separators(s: string) {
    forall i :: 0 <= i < |s| ==> IsSeparator(s[i])
  }

  /** The separators the arms insert. */
  lemma SeparatorLiterals()
    ensures Separators("(") && Separators(") ") && Separators(" ") && Separators("-")
  {
  }

  /** Strings made only of digits and separators, as every formatted number is. */
  predicate DigitsAndSeparators(s: string) {
    forall i :: 0 <= i < |s| ==> IsDigit(s[i]) || IsSeparator(s[i])
  }

  predicate NoDigits(s: string) {
    forall i :: 0 <= i < |s| ==> !IsDigit(s[i])
  }

  lemma {:induction false} DigitsOfNoDigits(s: string)
    requires NoDigits(s)
    ensures Digits(s) == []
  {
    if s != [] {
      DigitsOfNoDigits(s[1..]);
    }
  }

  lemma SliceIsDigits(d: string, a: nat, b: nat)
    requires AllDigits(d)
    ensures AllDigits(Slice(d, a, b)) && AllDigits(SliceFrom(d, a))
  {
  }

  /** Appending a separator and then a digit string adds exactly that digit string. */
  lemma Piece(x: string, sep: string, p: string)
    requires NoDigits(sep) && AllDigits(p)
    ensures Digits(x + sep + p) == Digits(x) + p
  {
    DigitsAppend(x + sep, p);
    DigitsAppend(x, sep);
    DigitsOfNoDigits(sep);
    DigitsOfDigitString(p);
  }

  /** A leading separator adds no digit. */
  lemma Lead(sep: string, p: string)
    requires NoDigits(sep) && AllDigits(p)
    ensures Digits(sep + p) == p
  {
    DigitsAppend(sep, p);
    DigitsOfNoDigits(sep);
    DigitsOfDigitString(p);
  }

  /** The digits of the first piece of an arm, with or without a leading separator. */
  lemma First(d: string, s0: string, a: nat)
    requires AllDigits(d) && Separators(s0)
    ensures Digits(Slice(d, 0, a)) == Slice(d, 0, a) && DigitsAndSeparators(Slice(d, 0, a))
    ensures Digits(s0 + Slice(d, 0, a)) == Slice(d, 0, a) && DigitsAndSeparators(s0 + Slice(d, 0, a))
  {
    SliceIsDigits(d, 0, a);
    DigitsOfDigitString(Slice(d, 0, a));
    Lead(s0, Slice(d, 0, a));
  }

  /** One step of an arm: if the digits written so far are the first `k` digits of `d`,
      appending a separator and the next slice gives the first `m` digits, and appending a
      separator and the rest gives all of `d`. */
  lemma Extend(d: string, x: string, k: nat, sep: string, m: nat)
    requires AllDigits(d) && Separators(sep) && k <= m
    requires Digits(x) == Slice(d, 0, k) && DigitsAndSeparators(x)
    ensures Digits(x + sep + Slice(d, k, m)) == Slice(d, 0, m)
    ensures Digits(x + sep + SliceFrom(d, k)) == d
    ensures DigitsAndSeparators(x + sep + Slice(d, k, m)) && DigitsAndSeparators(x + sep + SliceFrom(d, k))
  {
    SliceIsDigits(d, k, m);
    Piece(x, sep, Slice(d, k, m));
    Piece(x, sep, SliceFrom(d, k));
    SlicesJoin(d, 0, k, m);
  }

  lemma UsCaKeepsDigits(d: string)
    requires AllDigits(d) && |d| <= 10
    ensures Digits(Grouped(UsCa, d)) == d && DigitsAndSeparators(Grouped(UsCa, d))
  {
    var n := |d|;
    SeparatorLiterals();
    DigitsOfDigitString(d);
    if n > 6 {
      First(d, "(", 3);
      Extend(d, "(" + Slice(d, 0, 3), 3, ") ", 6);
      Extend(d, "(" + Slice(d, 0, 3) + ") " + Slice(d, 3, 6), 6, "-", 10);
    } else {
      First(d, "(", 3);
      Extend(d, "(" + Slice(d, 0, 3), 3, ") ", 3);
    }
  }

  lemma BrKeepsDigits(d: string)
    requires AllDigits(d) && |d| <= 11
    ensures Digits(Grouped(Br, d)) == d && DigitsAndSeparators(Grouped(Br, d))
  {
    var n := |d|;
    SeparatorLiterals();
    DigitsOfDigitString(d);
    if n > 7 {
      First(d, "(", 2);
      Extend(d, "(" + Slice(d, 0, 2), 2, ") ", 7);
      Extend(d, "(" + Slice(d, 0, 2) + ") " + Slice(d, 2, 7), 7, "-", 11);
    } else {
      First(d, "(", 2);
      Extend(d, "(" + Slice(d, 0, 2), 2, ") ", 2);
    }
  }

  lemma GbKeepsDigits(d: string)
    requires AllDigits(d) && |d| <= 10
    ensures Digits(Grouped(Gb, d)) == d && DigitsAndSeparators(Grouped(Gb, d))
  {
    var n := |d|;
    SeparatorLiterals();
    DigitsOfDigitString(d);
    if n > 7 {
      First(d, [], 4);
      Extend(d, Slice(d, 0, 4), 4, " ", 7);
      Extend(d, Slice(d, 0, 4) + " " + Slice(d, 4, 7), 7, " ", 10);
    } else {
      First(d, [], 4);
      Extend(d, Slice(d, 0, 4), 4, " ", 4);
    }
  }

  lemma AuKeepsDigits(d: string)
    requires AllDigits(d) && |d| <= 9
    ensures Digits(Grouped(Au, d)) == d && DigitsAndSeparators(Grouped(Au, d))
  {
    var n := |d|;
    SeparatorLiterals();
    DigitsOfDigitString(d);
    if n > 6 {
      First(d, [], 3);
      Extend(d, Slice(d, 0, 3), 3, " ", 6);
      Extend(d, Slice(d, 0, 3) + " " + Slice(d, 3, 6), 6, " ", 9);
    } else {
      First(d, [], 3);
      Extend(d, Slice(d, 0, 3), 3, " ", 3);
    }
  }

  lemma InKeepsDigits(d: string)
    requires AllDigits(d) && |d| <= 10
    ensures Digits(Grouped(In, d)) == d && DigitsAndSeparators(Grouped(In, d))
  {
    SeparatorLiterals();
    DigitsOfDigitString(d);
    First(d, [], 5);
    Extend(d, Slice(d, 0, 5), 5, " ", 10);
  }

  lemma CnKeepsDigits(d: string)
    requires AllDigits(d) && |d| <= 11
    ensures Digits(Grouped(Cn, d)) == d && DigitsAndSeparators(Grouped(Cn, d))
  {
    var n := |d|;
    SeparatorLiterals();
    DigitsOfDigitString(d);
    if n > 7 {
      First(d, [], 3);
      Extend(d, Slice(d, 0, 3), 3, " ", 7);
      Extend(d, Slice(d, 0, 3) + " " + Slice(d, 3, 7), 7, " ", 11);
    } else {
      First(d, [], 3);
      Extend(d, Slice(d, 0, 3), 3, " ", 3);
    }
  }

  lemma JpKrKeepsDigits(d: string)
    requires AllDigits(d) && |d| <= 10
    ensures Digits(Grouped(JpKr, d)) == d && DigitsAndSeparators(Grouped(JpKr, d))
  {
    var n := |d|;
    SeparatorLiterals();
    DigitsOfDigitString(d);
    if n > 6 {
      First(d, [], 2);
      Extend(d, Slice(d, 0, 2), 2, "-", 6);
      Extend(d, Slice(d, 0, 2) + "-" + Slice(d, 2, 6), 6, "-", 10);
    } else {
      First(d, [], 2);
      Extend(d, Slice(d, 0, 2), 2, "-", 2);
    }
  }

  lemma FrKeepsDigits(d: string)
    requires AllDigits(d) && |d| <= 9
    ensures Digits(Grouped(Fr, d)) == d && DigitsAndSeparators(Grouped(Fr, d))
  {
    var n := |d|;
    SeparatorLiterals();
    DigitsOfDigitString(d);
    if n > 7 {
      First(d, [], 1);
      Extend(d, Slice(d, 0, 1), 1, " ", 3);
      Extend(d, Slice(d, 0, 1) + " " + Slice(d, 1, 3), 3, " ", 5);
      Extend(d, Slice(d, 0, 1) + " " + Slice(d, 1, 3) + " " + Slice(d, 3, 5), 5, " ", 7);
      Extend(d, Slice(d, 0, 1) + " " + Slice(d, 1, 3) + " " + Slice(d, 3, 5) + " " + Slice(d, 5, 7), 7, " ", 9);
    } else if n > 5 {
      First(d, [], 1);
      Extend(d, Slice(d, 0, 1), 1, " ", 3);
      Extend(d, Slice(d, 0, 1) + " " + Slice(d, 1, 3), 3, " ", 5);
      Extend(d, Slice(d, 0, 1) + " " + Slice(d, 1, 3) + " " + Slice(d, 3, 5), 5, " ", 5);
    } else if n > 3 {
      First(d, [], 1);
      Extend(d, Slice(d, 0, 1), 1, " ", 3);
      Extend(d, Slice(d, 0, 1) + " " + Slice(d, 1, 3), 3, " ", 3);
    } else {
      First(d, [], 1);
      Extend(d, Slice(d, 0, 1), 1, " ", 1);
    }
  }

  lemma DeNgEgMxKeepsDigits(d: string)
    requires AllDigits(d)
    ensures Digits(Grouped(DeNgEgMx, d)) == d && DigitsAndSeparators(Grouped(DeNgEgMx, d))
  {
    SeparatorLiterals();
    DigitsOfDigitString(d);
    First(d, [], 3);
    Extend(d, Slice(d, 0, 3), 3, " ", 3);
  }

  lemma ItPhPkTrKeepsDigits(d: string)
    requires AllDigits(d)
    ensures Digits(Grouped(ItPhPkTr, d)) == d && DigitsAndSeparators(Grouped(ItPhPkTr, d))
  {
    var n := |d|;
    SeparatorLiterals();
    DigitsOfDigitString(d);
    if n > 6 {
      First(d, [], 3);
      Extend(d, Slice(d, 0, 3), 3, " ", 6);
      Extend(d, Slice(d, 0, 3) + " " + Slice(d, 3, 6), 6, " ", 6);
    } else {
      First(d, [], 3);
      Extend(d, Slice(d, 0, 3), 3, " ", 3);
    }
  }

  lemma EsSaAeNzThVnIlPlUaFiKeepsDigits(d: string)
    requires AllDigits(d)
    ensures Digits(Grouped(EsSaAeNzThVnIlPlUaFi, d)) == d && DigitsAndSeparators(Grouped(EsSaAeNzThVnIlPlUaFi, d))
  {
    var n := |d|;
    SeparatorLiterals();
    DigitsOfDigitString(d);
    if n > 5 {
      First(d, [], 3);
      Extend(d, Slice(d, 0, 3), 3, " ", 5);
      Extend(d, Slice(d, 0, 3) + " " + Slice(d, 3, 5), 5, " ", 5);
    } else {
      First(d, [], 3);
      Extend(d, Slice(d, 0, 3), 3, " ", 3);
    }
  }

  lemma ArZaKeepsDigits(d: string)
    requires AllDigits(d)
    ensures Digits(Grouped(ArZa, d)) == d && DigitsAndSeparators(Grouped(ArZa, d))
  {
    SeparatorLiterals();
    DigitsOfDigitString(d);
    First(d, [], 2);
    Extend(d, Slice(d, 0, 2), 2, " ", 2);
  }

  lemma SgKeepsDigits(d: string)
    requires AllDigits(d) && |d| <= 8
    ensures Digits(Grouped(Sg, d)) == d && DigitsAndSeparators(Grouped(Sg, d))
  {
    SeparatorLiterals();
    DigitsOfDigitString(d);
    First(d, [], 4);
    Extend(d, Slice(d, 0, 4), 4, " ", 8);
  }

  lemma MyKeepsDigits(d: string)
    requires AllDigits(d)
    ensures Digits(Grouped(My, d)) == d && DigitsAndSeparators(Grouped(My, d))
  {
    var n := |d|;
    SeparatorLiterals();
    DigitsOfDigitString(d);
    if n > 5 {
      First(d, [], 2);
      Extend(d, Slice(d, 0, 2), 2, "-", 5);
      Extend(d, Slice(d, 0, 2) + "-" + Slice(d, 2, 5), 5, " ", 5);
    } else {
      First(d, [], 2);
      Extend(d, Slice(d, 0, 2), 2, "-", 2);
    }
  }

  lemma IdKeepsDigits(d: string)
    requires AllDigits(d) && |d| <= 11
    ensures Digits(Grouped(Id, d)) == d && DigitsAndSeparators(Grouped(Id, d))
  {
    var n := |d|;
    SeparatorLiterals();
    DigitsOfDigitString(d);
    if n > 7 {
      First(d, [], 3);
      Extend(d, Slice(d, 0, 3), 3, "-", 7);
      Extend(d, Slice(d, 0, 3) + "-" + Slice(d, 3, 7), 7, "-", 11);
    } else {
      First(d, [], 3);
      Extend(d, Slice(d, 0, 3), 3, "-", 3);
    }
  }

  lemma KeNlBeSeKeepsDigits(d: string)
    requires AllDigits(d)
    ensures Digits(Grouped(KeNlBeSe, d)) == d && DigitsAndSeparators(Grouped(KeNlBeSe, d))
  {
    SeparatorLiterals();
    DigitsOfDigitString(d);
    First(d, [], 3);
    Extend(d, Slice(d, 0, 3), 3, " ", 3);
  }

  lemma NoDkKeepsDigits(d: string)
    requires AllDigits(d) && |d| <= 8
    ensures Digits(Grouped(NoDk, d)) == d && DigitsAndSeparators(Grouped(NoDk, d))
  {
    var n := |d|;
    SeparatorLiterals();
    DigitsOfDigitString(d);
    if n > 6 {
      First(d, [], 2);
      Extend(d, Slice(d, 0, 2), 2, " ", 4);
      Extend(d, Slice(d, 0, 2) + " " + Slice(d, 2, 4), 4, " ", 6);
      Extend(d, Slice(d, 0, 2) + " " + Slice(d, 2, 4) + " " + Slice(d, 4, 6), 6, " ", 8);
    } else if n > 4 {
      First(d, [], 2);
      Extend(d, Slice(d, 0, 2), 2, " ", 4);
      Extend(d, Slice(d, 0, 2) + " " + Slice(d, 2, 4), 4, " ", 4);
    } else {
      First(d, [], 2);
      Extend(d, Slice(d, 0, 2), 2, " ", 2);
    }
  }

  lemma BdRuKeepsDigits(d: string)
    requires AllDigits(d)
    ensures Digits(Grouped(BdRu, d)) == d && DigitsAndSeparators(Grouped(BdRu, d))
  {
    SeparatorLiterals();
    DigitsOfDigitString(d);
    First(d, [], 4);
    Extend(d, Slice(d, 0, 4), 4, "-", 4);
  }

  /** Every arm, applied to a digit string it covers, only inserts separators: deleting the
      non-digits of its output gives back exactly its input. */
  lemma GroupedKeepsDigits(rule: Rule, d: string)
    requires AllDigits(d) && Covers(rule, |d|)
    ensures Digits(Grouped(rule, d)) == d && DigitsAndSeparators(Grouped(rule, d))
  {
    match rule
    case UsCa => UsCaKeepsDigits(d);
    case Br => BrKeepsDigits(d);
    case Gb => GbKeepsDigits(d);
    case Au => AuKeepsDigits(d);
    case In => InKeepsDigits(d);
    case Cn => CnKeepsDigits(d);
    case JpKr => JpKrKeepsDigits(d);
    case Fr => FrKeepsDigits(d);
    case DeNgEgMx => DeNgEgMxKeepsDigits(d);
    case ItPhPkTr => ItPhPkTrKeepsDigits(d);
    case EsSaAeNzThVnIlPlUaFi => EsSaAeNzThVnIlPlUaFiKeepsDigits(d);
    case ArZa => ArZaKeepsDigits(d);
    case Sg => SgKeepsDigits(d);
    case My => MyKeepsDigits(d);
    case Id => IdKeepsDigits(d);
    case KeNlBeSe => KeNlBeSeKeepsDigits(d);
    case NoDk => NoDkKeepsDigits(d);
    case BdRu => BdRuKeepsDigits(d);
    case Default =>
      DigitsOfDigitString(d);
  }

  // ---------------------------------------------------------------------------
  // Properties of formatPhoneNumber

  /** Every code in the table has an explicit arm of the switch, and that arm's slices
      cover the region's full digit count. */
  lemma EntryHasArm(i: nat)
    requires i < |Regions|
    ensures RuleFor(Regions[i].code) != Default
    ensures Covers(RuleFor(Regions[i].code), Regions[i].digits)
  {
    if i < 21 { FirstHalfHasArm(i); } else { SecondHalfHasArm(i); }
  }

  lemma FirstHalfHasArm(i: nat)
    requires i < 21
    ensures RuleFor(Regions[i].code) != Default
    ensures Covers(RuleFor(Regions[i].code), Regions[i].digits)
  {
  }

  lemma SecondHalfHasArm(i: nat)
    requires 21 <= i < |Regions|
    ensures RuleFor(Regions[i].code) != Default
    ensures Covers(RuleFor(Regions[i].code), Regions[i].digits)
  {
  }

  /** Hence so does every member of the table, looked up by its code. */
  lemma MemberHasArm(code: string, r: Region)
    requires r in Regions && r.code == code
    ensures RuleFor(code) != Default && Covers(RuleFor(code), r.digits)
  {
    var i :| 0 <= i < |Regions| && Regions[i] == r;
    EntryHasArm(i);
  }

  /** `cleaned.slice(0, n)` is the first `min(|cleaned|, n)` digits. */
  lemma LimitedIsPrefix(value: string, n: nat)
    ensures Limited(value, n) == Digits(value)[..Min(|Digits(value)|, n)]
    ensures AllDigits(Limited(value, n)) && |Limited(value, n)| <= n
  {
  }

  /** An unknown region code leaves the input exactly as typed. */
  lemma UnknownRegionUnchanged(value: string, regionCode: string)
    requires FindRegion(regionCode).None?
    ensures FormatPhoneNumber(value, regionCode) == value
  {
  }

  /** Formatting only inserts separators: the output consists of digits and separators,
      and its digits are exactly the first `min(len, region.digits)` digits of the input. */
  lemma FormatOnlyInsertsSeparators(value: string, regionCode: string, region: Region)
    requires region in Regions && region.code == regionCode
    ensures var d := Digits(value);
      Digits(FormatPhoneNumber(value, regionCode)) == d[..Min(|d|, region.digits)]
    ensures DigitsAndSeparators(FormatPhoneNumber(value, regionCode))
  {
    LookupFindsEntry(regionCode, region);
    MemberHasArm(regionCode, region);
    LimitedIsPrefix(value, region.digits);
    GroupedKeepsDigits(RuleFor(regionCode), Limited(value, region.digits));
  }

  lemma {:induction false} GroupedEmpty(rule: Rule)
    ensures Grouped(rule, []) == []
  {
    match rule
    case _ =>
  }

  /** The output never holds more digits than the region allows, and input without a
      single digit formats to the empty string. */
  lemma FormatDigitBound(value: string, regionCode: string, region: Region)
    requires region in Regions && region.code == regionCode
    ensures |Digits(FormatPhoneNumber(value, regionCode))| == Min(|Digits(value)|, region.digits)
    ensures |Digits(FormatPhoneNumber(value, regionCode))| <= region.digits
    ensures Digits(value) == [] ==> FormatPhoneNumber(value, regionCode) == []
  {
    LookupFindsEntry(regionCode, region);
    FormatOnlyInsertsSeparators(value, regionCode, region);
    GroupedEmpty(RuleFor(regionCode));
  }

  /** Re-limiting an arm's output to `n` digits gives back that arm's input, so the arm
      shows the same string again. */
  lemma RegroupedIsStable(rule: Rule, lim: string, n: nat)
    requires AllDigits(lim) && |lim| <= n && Covers(rule, |lim|)
    ensures Limited(Grouped(rule, lim), n) == lim
    ensures Grouped(rule, Limited(Grouped(rule, lim), n)) == Grouped(rule, lim)
  {
    GroupedKeepsDigits(rule, lim);
  }

  /** Re-formatting a formatted number changes nothing, so re-formatting the whole field on
      every keystroke is stable. */
  lemma FormatIdempotent(value: string, regionCode: string)
    ensures FormatPhoneNumber(FormatPhoneNumber(value, regionCode), regionCode) == FormatPhoneNumber(value, regionCode)
  {
    match FindRegion(regionCode)
    case None =>
    case Some(region) =>
      MemberHasArm(regionCode, region);
      LimitedIsPrefix(value, region.digits);
      RegroupedIsStable(RuleFor(regionCode), Limited(value, region.digits), region.digits);
  }

  lemma NorthAmericanRegion(regionCode: string)
    requires regionCode == "US" || regionCode == "CA"
    ensures FindRegion(regionCode).Some? && FindRegion(regionCode).value.digits == 10
    ensures RuleFor(regionCode) == UsCa
  {
    assert Regions[0].code == "US" && Regions[1].code == "CA";
  }

  /** US and Canada: up to three digits stay bare, then `(DDD) D…`, then `(DDD) DDD-D…`;
      ten or more digits give exactly `(DDD) DDD-DDDD`. */
  lemma NorthAmericanShape(value: string, regionCode: string)
    requires regionCode == "US" || regionCode == "CA"
    ensures var d := Digits(value); var out := FormatPhoneNumber(value, regionCode);
      && (|d| <= 3 ==> out == d)
      && (3 < |d| <= 6 ==> out == "(" + d[..3] + ") " + d[3..])
      && (6 < |d| < 10 ==> out == "(" + d[..3] + ") " + d[3..6] + "-" + d[6..])
      && (10 <= |d| ==> out == "(" + d[..3] + ") " + d[3..6] + "-" + d[6..10])
  {
    var d := Digits(value);
    NorthAmericanRegion(regionCode);
    LimitedIsPrefix(value, 10);
    var lim := Limited(value, 10);
    assert FormatPhoneNumber(value, regionCode) == Grouped(UsCa, lim);
    if 10 <= |d| {
      assert lim == d[..10];
      assert lim[..3] == d[..3] && lim[3..6] == d[3..6] && lim[6..10] == d[6..10];
    } else {
      assert lim == d;
    }
  }
}
