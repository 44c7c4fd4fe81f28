/** What `handleStartCall` validates before it dials, and the number it dials. */
module CallStart {
  import opened Util
  import opened PhoneRegions
  import opened PhoneFormat

  const EmptyNumberMessage: string := "Please enter a phone number"

  /** The message for a number whose digit count is not the region's. */
  function WrongLengthMessage(region: Region): string {
    "Please enter a valid " + region.name + " phone number (" + NatToString(region.digits) + " digits required)"
  }

  /** How `${region?.dialCode}` renders: the prefix, or `undefined` when the code is
      not in the table. */
  function DialPrefix(selectedRegion: string): string {
    match FindRegion(selectedRegion)
    case Some(region) => region.dialCode
    case None => "undefined"
  }

  /** The synchronous part of `handleStartCall`: either the error message it shows, or
      the full number it sends to the call endpoint. */
  function ValidateStart(phoneNumber: string, selectedRegion: string): Result<string> {
    if phoneNumber == [] then Err(EmptyNumberMessage)
    else
      var cleaned := Digits(phoneNumber);
      match FindRegion(selectedRegion)
      case Some(region) =>
        if |cleaned| != region.digits then Err(WrongLengthMessage(region))
        else Ok(DialPrefix(selectedRegion) + cleaned)
      case None => Ok(DialPrefix(selectedRegion) + cleaned)
  }

  /** A start is rejected exactly when the field is empty or, for a known region, the
      count of digits in it differs from the region's. */
  lemma StartAcceptedIff(phoneNumber: string, selectedRegion: string)
    ensures ValidateStart(phoneNumber, selectedRegion).Ok? <==>
      phoneNumber != [] &&
      forall r :: FindRegion(selectedRegion) == Some(r) ==> |Digits(phoneNumber)| == r.digits
    ensures phoneNumber == [] ==> ValidateStart(phoneNumber, selectedRegion) == Err(EmptyNumberMessage)
  {
  }

  /** A non-empty field with the region's digit count is accepted, and the number dialed
      is the region's dial prefix followed by exactly those digits, with every separator
      typed into the field dropped. */
  lemma DialedNumberForm(phoneNumber: string, selectedRegion: string, region: Region)
    requires region in Regions && region.code == selectedRegion
    requires phoneNumber != [] && |Digits(phoneNumber)| == region.digits
    ensures var dialed := region.dialCode + Digits(phoneNumber);
      && ValidateStart(phoneNumber, selectedRegion) == Ok(dialed)
      && |dialed| == |region.dialCode| + region.digits
      && IsDialCode(dialed) && dialed[..|region.dialCode|] == region.dialCode
  {
    LookupFindsEntry(selectedRegion, region);
    MemberWellFormed(region);
    PrefixedDigits(region.dialCode, Digits(phoneNumber));
  }

  lemma PrefixedDigits(prefix: string, d: string)
    requires IsDialCode(prefix) && AllDigits(d)
    ensures IsDialCode(prefix + d) && (prefix + d)[..|prefix|] == prefix
  {
    assert (prefix + d)[1..] == prefix[1..] + d;
    AllDigitsJoin(prefix[1..], d);
  }

  /** A wrong digit count names the region and the count it needs. */
  lemma WrongLengthRejected(phoneNumber: string, selectedRegion: string, region: Region)
    requires region in Regions && region.code == selectedRegion
    requires phoneNumber != [] && |Digits(phoneNumber)| != region.digits
    ensures ValidateStart(phoneNumber, selectedRegion) == Err(WrongLengthMessage(region))
    ensures DecimalValue(NatToString(region.digits)) == region.digits
  {
    LookupFindsEntry(selectedRegion, region);
    NatToStringRoundTrip(region.digits);
  }

  /** With a code outside the table nothing is checked but emptiness, and the dialed
      number starts with the text `undefined`. */
  lemma UnknownRegionDialsUndefined(phoneNumber: string, selectedRegion: string)
    requires FindRegion(selectedRegion).None? && phoneNumber != []
    ensures ValidateStart(phoneNumber, selectedRegion) == Ok("undefined" + Digits(phoneNumber))
  {
  }

  /** The field holds what the formatter made of the user's keystrokes. Such a field is
      accepted exactly when the user typed at least the region's digit count, and the
      dialed number carries the first `digits` of the typed digits. */
  lemma FormattedFieldAccepted(typed: string, selectedRegion: string, region: Region)
    requires region in Regions && region.code == selectedRegion
    ensures var d := Digits(typed);
      ValidateStart(FormatPhoneNumber(typed, selectedRegion), selectedRegion).Ok? <==> |d| >= region.digits
    ensures var d := Digits(typed);
      |d| >= region.digits ==>
        ValidateStart(FormatPhoneNumber(typed, selectedRegion), selectedRegion) ==
          Ok(region.dialCode + d[..region.digits])
  {
    LookupFindsEntry(selectedRegion, region);
    var field := FormatPhoneNumber(typed, selectedRegion);
    var d := Digits(typed);
    FormatOnlyInsertsSeparators(typed, selectedRegion, region);
    FormatDigitBound(typed, selectedRegion, region);
    MemberWellFormed(region);
    if |d| >= region.digits {
      assert |Digits(field)| == region.digits;
    }
  }
}
