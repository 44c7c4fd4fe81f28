/** The `format` column of the region table against what `formatPhoneNumber` produces. */
module PhoneTemplate {
  import opened Util
  import opened PhoneRegions
  import opened PhoneFormat

  /** A string with every digit replaced by `X`, the notation of the `format` column. */
  function Shape(s: string): string {
    seq(|s|, i requires 0 <= i < |s| => if IsDigit(s[i]) then 'X' else s[i])
  }

  /** `Shape` distributes over concatenation and commutes with the clamping slices, and it
      leaves the separators alone. */
  lemma ShapeFacts(d: string)
    ensures forall a: string, b: string {:trigger Shape(a + b)} :: Shape(a + b) == Shape(a) + Shape(b)
    ensures forall i: nat, j: nat {:trigger Shape(Slice(d, i, j))} :: Shape(Slice(d, i, j)) == Slice(Shape(d), i, j)
    ensures forall i: nat {:trigger Shape(SliceFrom(d, i))} :: Shape(SliceFrom(d, i)) == SliceFrom(Shape(d), i)
    ensures Shape("(") == "(" && Shape(") ") == ") " && Shape(" ") == " " && Shape("-") == "-"
  {
    forall a: string, b: string ensures Shape(a + b) == Shape(a) + Shape(b) {
      assert forall k :: 0 <= k < |a + b| ==> Shape(a + b)[k] == (Shape(a) + Shape(b))[k];
    }
  }

  lemma UsCaShape(d: string)
    ensures Shape(Grouped(UsCa, d)) == Grouped(UsCa, Shape(d))
  {
    ShapeFacts(d);
  }

  lemma BrShape(d: string)
    ensures Shape(Grouped(Br, d)) == Grouped(Br, Shape(d))
  {
    ShapeFacts(d);
  }

  lemma GbShape(d: string)
    ensures Shape(Grouped(Gb, d)) == Grouped(Gb, Shape(d))
  {
    ShapeFacts(d);
  }

  lemma AuShape(d: string)
    ensures Shape(Grouped(Au, d)) == Grouped(Au, Shape(d))
  {
    ShapeFacts(d);
  }

  lemma InShape(d: string)
    ensures Shape(Grouped(In, d)) == Grouped(In, Shape(d))
  {
    ShapeFacts(d);
  }

  lemma CnShape(d: string)
    ensures Shape(Grouped(Cn, d)) == Grouped(Cn, Shape(d))
  {
    ShapeFacts(d);
  }

  lemma JpKrShape(d: string)
    ensures Shape(Grouped(JpKr, d)) == Grouped(JpKr, Shape(d))
  {
    ShapeFacts(d);
  }

  lemma FrShape(d: string)
    ensures Shape(Grouped(Fr, d)) == Grouped(Fr, Shape(d))
  {
    ShapeFacts(d);
    var a, b, c, e := Slice(d, 0, 1), Slice(d, 1, 3), Slice(d, 3, 5), Slice(d, 5, 7);
    if |d| > 7 {
      var x := a + " " + b + " " + c + " " + e;
      assert Shape(x) == Shape(a) + " " + Shape(b) + " " + Shape(c) + " " + Shape(e);
      assert Shape(x + " " + Slice(d, 7, 9)) == Shape(x) + " " + Shape(Slice(d, 7, 9));
    }
  }

  lemma DeNgEgMxShape(d: string)
    ensures Shape(Grouped(DeNgEgMx, d)) == Grouped(DeNgEgMx, Shape(d))
  {
    ShapeFacts(d);
  }

  lemma ItPhPkTrShape(d: string)
    ensures Shape(Grouped(ItPhPkTr, d)) == Grouped(ItPhPkTr, Shape(d))
  {
    ShapeFacts(d);
  }

  lemma EsSaAeNzThVnIlPlUaFiShape(d: string)
    ensures Shape(Grouped(EsSaAeNzThVnIlPlUaFi, d)) == Grouped(EsSaAeNzThVnIlPlUaFi, Shape(d))
  {
    ShapeFacts(d);
  }

  lemma ArZaShape(d: string)
    ensures Shape(Grouped(ArZa, d)) == Grouped(ArZa, Shape(d))
  {
    ShapeFacts(d);
  }

  lemma SgShape(d: string)
    ensures Shape(Grouped(Sg, d)) == Grouped(Sg, Shape(d))
  {
    ShapeFacts(d);
  }

  lemma MyShape(d: string)
    ensures Shape(Grouped(My, d)) == Grouped(My, Shape(d))
  {
    ShapeFacts(d);
  }

  lemma IdShape(d: string)
    ensures Shape(Grouped(Id, d)) == Grouped(Id, Shape(d))
  {
    ShapeFacts(d);
  }

  lemma KeNlBeSeShape(d: string)
    ensures Shape(Grouped(KeNlBeSe, d)) == Grouped(KeNlBeSe, Shape(d))
  {
    ShapeFacts(d);
  }

  lemma NoDkShape(d: string)
    ensures Shape(Grouped(NoDk, d)) == Grouped(NoDk, Shape(d))
  {
    ShapeFacts(d);
    var a, b, c := Slice(d, 0, 2), Slice(d, 2, 4), Slice(d, 4, 6);
    if |d| > 6 {
      var x := a + " " + b + " " + c;
      assert Shape(x) == Shape(a) + " " + Shape(b) + " " + Shape(c);
      assert Shape(x + " " + Slice(d, 6, 8)) == Shape(x) + " " + Shape(Slice(d, 6, 8));
    }
  }

  lemma BdRuShape(d: string)
    ensures Shape(Grouped(BdRu, d)) == Grouped(BdRu, Shape(d))
  {
    ShapeFacts(d);
  }

  /** Every arm only slices its input and adds fixed separators, so it commutes with
      replacing digits by `X`. */
  lemma GroupedShape(rule: Rule, d: string)
    ensures Shape(Grouped(rule, d)) == Grouped(rule, Shape(d))
  {
    match rule
    case UsCa => UsCaShape(d);
    case Br => BrShape(d);
    case Gb => GbShape(d);
    case Au => AuShape(d);
    case In => InShape(d);
    case Cn => CnShape(d);
    case JpKr => JpKrShape(d);
    case Fr => FrShape(d);
    case DeNgEgMx => DeNgEgMxShape(d);
    case ItPhPkTr => ItPhPkTrShape(d);
    case EsSaAeNzThVnIlPlUaFi => EsSaAeNzThVnIlPlUaFiShape(d);
    case ArZa => ArZaShape(d);
    case Sg => SgShape(d);
    case My => MyShape(d);
    case Id => IdShape(d);
    case KeNlBeSe => KeNlBeSeShape(d);
    case NoDk => NoDkShape(d);
    case BdRu => BdRuShape(d);
    case Default =>
  }

  // ---------------------------------------------------------------------------
  // The format column

  /** `n` placeholder digits. */
  function Xs(n: nat): (s: string)
    ensures |s| == n && forall i :: 0 <= i < n ==> s[i] == 'X'
  {
    seq(n, _ => 'X')
  }

  /** Whether a table entry's `format` is the shape of a formatted complete number. */
  predicate FormatAgrees(r: Region) {
    Grouped(RuleFor(r.code), Xs(r.digits)) == r.format
  }

  lemma ShapeOfDigits(d: string)
    requires AllDigits(d)
    ensures Shape(d) == Xs(|d|)
  {
  }

  /** Once the field holds at least as many digits as the region needs, the formatted
      text has the shape the region's formatter arm gives a complete number. */
  lemma FullLengthShape(value: string, regionCode: string, region: Region)
    requires region in Regions && region.code == regionCode
    requires |Digits(value)| >= region.digits
    ensures Shape(FormatPhoneNumber(value, regionCode)) == Grouped(RuleFor(regionCode), Xs(region.digits))
  {
    LookupFindsEntry(regionCode, region);
    var limited := Limited(value, region.digits);
    LimitedIsPrefix(value, region.digits);
    assert |limited| == region.digits;
    ShapeOfDigits(limited);
    GroupedShape(RuleFor(regionCode), limited);
  }

  /** For an entry whose `format` agrees, a complete number is displayed in that format. */
  lemma DisplayedInFormat(value: string, regionCode: string, region: Region)
    requires region in Regions && region.code == regionCode
    requires FormatAgrees(region)
    requires |Digits(value)| >= region.digits
    ensures Shape(FormatPhoneNumber(value, regionCode)) == region.format
  {
    LookupFindsEntry(regionCode, region);
    FullLengthShape(value, regionCode, region);
    assert region.code == regionCode;
  }

  lemma UsCaComplete()
    ensures Grouped(UsCa, Xs(10)) == "(XXX) XXX-XXXX"
  {
  }

  /** The United States and Canada entries describe what the formatter produces. */
  lemma NorthAmericanFormatAgrees()
    ensures FormatAgrees(Regions[0]) && FormatAgrees(Regions[1])
  {
    UsCaComplete();
  }

  lemma DeNgEgMxComplete()
    ensures Grouped(DeNgEgMx, Xs(10)) == "XXX XXXXXXX"
  {
  }

  /** The Mexico entry advertises `XX XXXX XXXX`, but the formatter groups a complete
      Mexican number as three digits, a space and the remaining seven. */
  lemma MexicoFormatDisagrees()
    ensures Regions[12].code == "MX" && Regions[12].format == "XX XXXX XXXX"
    ensures Grouped(RuleFor("MX"), Xs(Regions[12].digits)) == "XXX XXXXXXX"
    ensures !FormatAgrees(Regions[12])
  {
    DeNgEgMxComplete();
  }

  lemma GbComplete()
    ensures Grouped(Gb, Xs(10)) == "XXXX XXX XXX"
  {
  }

  /** The United Kingdom entry advertises eleven places, `XXXX XXX XXXX`, but only ten
      digits are kept and the last group has three. */
  lemma UnitedKingdomFormatDisagrees()
    ensures Regions[2].code == "GB" && Regions[2].format == "XXXX XXX XXXX"
    ensures Grouped(RuleFor("GB"), Xs(Regions[2].digits)) == "XXXX XXX XXX"
    ensures !FormatAgrees(Regions[2])
  {
    GbComplete();
  }

  lemma EsSaAeNzThVnIlPlUaFiComplete()
    ensures Grouped(EsSaAeNzThVnIlPlUaFi, Xs(9)) == "XXX XX XXXX"
  {
  }

  /** The Spain entry advertises `XXX XX XX XX`, but the formatter puts the last four
      digits in one group. */
  lemma SpainFormatDisagrees()
    ensures Regions[10].code == "ES" && Regions[10].format == "XXX XX XX XX"
    ensures Grouped(RuleFor("ES"), Xs(Regions[10].digits)) == "XXX XX XXXX"
    ensures !FormatAgrees(Regions[10])
  {
    EsSaAeNzThVnIlPlUaFiComplete();
  }

  lemma NoDkComplete()
    ensures Grouped(NoDk, Xs(8)) == "XX XX XX XX"
  {
  }

  /** The Norway entry advertises `XXX XX XXX`, but Norway shares the Danish arm, which
      groups eight digits in pairs. */
  lemma NorwayFormatDisagrees()
    ensures Regions[36].code == "NO" && Regions[36].format == "XXX XX XXX"
    ensures Grouped(RuleFor("NO"), Xs(Regions[36].digits)) == "XX XX XX XX"
    ensures !FormatAgrees(Regions[36])
  {
    NoDkComplete();
  }
}
