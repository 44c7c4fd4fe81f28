/** The fixed table of dialling regions the call page offers, and lookup by region code. */
module PhoneRegions {
  import opened Util

  /** One entry of the region table: a two-letter code, the display name used in error
      messages, the international dial prefix, the display template (`X` = one digit)
      and the number of national digits a complete number has. */
  datatype Region = Region(code: string, name: string, dialCode: string, format: string, digits: nat)

  const Regions: seq<Region> := [
    Region("US", "United States", "+1", "(XXX) XXX-XXXX", 10),
    Region("CA", "Canada", "+1", "(XXX) XXX-XXXX", 10),
    Region("GB", "United Kingdom", "+44", "XXXX XXX XXXX", 10),
    Region("AU", "Australia", "+61", "XXX XXX XXX", 9),
    Region("IN", "India", "+91", "XXXXX XXXXX", 10),
    Region("CN", "China", "+86", "XXX XXXX XXXX", 11),
    Region("JP", "Japan", "+81", "XX-XXXX-XXXX", 10),
    Region("DE", "Germany", "+49", "XXX XXXXXXXX", 11),
    Region("FR", "France", "+33", "X XX XX XX XX", 9),
    Region("IT", "Italy", "+39", "XXX XXX XXXX", 10),
    Region("ES", "Spain", "+34", "XXX XX XX XX", 9),
    Region("BR", "Brazil", "+55", "(XX) XXXXX-XXXX", 11),
    Region("MX", "Mexico", "+52", "XX XXXX XXXX", 10),
    Region("AR", "Argentina", "+54", "XX XXXX-XXXX", 10),
    Region("ZA", "South Africa", "+27", "XX XXX XXXX", 9),
    Region("NG", "Nigeria", "+234", "XXX XXX XXXX", 10),
    Region("EG", "Egypt", "+20", "XXX XXX XXXX", 10),
    Region("KE", "Kenya", "+254", "XXX XXXXXX", 9),
    Region("SG", "Singapore", "+65", "XXXX XXXX", 8),
    Region("MY", "Malaysia", "+60", "XX-XXX XXXX", 10),
    Region("TH", "Thailand", "+66", "XX XXX XXXX", 9),
    Region("PH", "Philippines", "+63", "XXX XXX XXXX", 10),
    Region("ID", "Indonesia", "+62", "XXX-XXXX-XXXX", 11),
    Region("VN", "Vietnam", "+84", "XXX XXX XXXX", 9),
    Region("PK", "Pakistan", "+92", "XXX XXXXXXX", 10),
    Region("BD", "Bangladesh", "+880", "XXXX-XXXXXX", 10),
    Region("RU", "Russia", "+7", "XXX XXX-XX-XX", 10),
    Region("TR", "Turkey", "+90", "XXX XXX XXXX", 10),
    Region("SA", "Saudi Arabia", "+966", "XX XXX XXXX", 9),
    Region("AE", "UAE", "+971", "XX XXX XXXX", 9),
    Region("IL", "Israel", "+972", "XX-XXX-XXXX", 9),
    Region("KR", "South Korea", "+82", "XX-XXXX-XXXX", 10),
    Region("NZ", "New Zealand", "+64", "XX XXX XXXX", 9),
    Region("NL", "Netherlands", "+31", "X XX XX XX XX", 9),
    Region("BE", "Belgium", "+32", "XXX XX XX XX", 9),
    Region("SE", "Sweden", "+46", "XX-XXX XX XX", 9),
    Region("NO", "Norway", "+47", "XXX XX XXX", 8),
    Region("DK", "Denmark", "+45", "XX XX XX XX", 8),
    Region("FI", "Finland", "+358", "XX XXX XXXX", 9),
    Region("PL", "Poland", "+48", "XXX XXX XXX", 9),
    Region("UA", "Ukraine", "+380", "XX XXX XX XX", 9)
  ]

  /** `Array.prototype.find` over a list of regions: the first entry whose code matches. */
  function Find(rs: seq<Region>, code: string): (r: Option<Region>)
    ensures r.Some? ==> r.value.code == code
    ensures r.None? <==> forall i :: 0 <= i < |rs| ==> rs[i].code != code
    ensures r.Some? ==> exists i :: 0 <= i < |rs| && rs[i] == r.value &&
                          forall j :: 0 <= j < i ==> rs[j].code != code
  {
    if rs == [] then None
    else if rs[0].code == code then Some(rs[0])
    else
      var r := Find(rs[1..], code);
      assert forall i :: 1 <= i < |rs| ==> rs[i] == rs[1..][i - 1];
      r
  }

  /** The region the page looks up for a region code. */
  function FindRegion(code: string): Option<Region> {
    Find(Regions, code)
  }

  /** Whether a string is a dial prefix: a plus sign followed by at least one digit. */
  predicate IsDialCode(s: string) {
    |s| >= 2 && s[0] == '+' && AllDigits(s[1..])
  }

  /** Every entry of the table has a dial code made of a plus sign and digits, and needs
      between 8 and 11 national digits. */
  lemma EntryWellFormed(i: nat)
    requires i < |Regions|
    ensures IsDialCode(Regions[i].dialCode) && 8 <= Regions[i].digits <= 11
  {
    if i < 21 { FirstHalfWellFormed(i); } else { SecondHalfWellFormed(i); }
  }

  lemma FirstHalfWellFormed(i: nat)
    requires i < 21
    ensures IsDialCode(Regions[i].dialCode) && 8 <= Regions[i].digits <= 11
  {
  }

  lemma SecondHalfWellFormed(i: nat)
    requires 21 <= i < |Regions|
    ensures IsDialCode(Regions[i].dialCode) && 8 <= Regions[i].digits <= 11
  {
  }

  /** Hence so does every member of the table. */
  lemma MemberWellFormed(r: Region)
    requires r in Regions
    ensures IsDialCode(r.dialCode) && 8 <= r.digits <= 11
  {
    var i :| 0 <= i < |Regions| && Regions[i] == r;
    EntryWellFormed(i);
  }

  /** The position of a code in the table, by a direct `match` on its two letters. */
  function CodeIndex(code: string): int {
    if |code| != 2 then -1
    else
      match code[0]
      case 'U' => (match code[1] case 'S' => 0 case 'A' => 40 case _ => -1)
      case 'C' => (match code[1] case 'A' => 1 case 'N' => 5 case _ => -1)
      case 'G' => (match code[1] case 'B' => 2 case _ => -1)
      case 'A' => (match code[1] case 'U' => 3 case 'R' => 13 case 'E' => 29 case _ => -1)
      case 'I' => (match code[1] case 'N' => 4 case 'T' => 9 case 'D' => 22 case 'L' => 30 case _ => -1)
      case 'J' => (match code[1] case 'P' => 6 case _ => -1)
      case 'D' => (match code[1] case 'E' => 7 case 'K' => 37 case _ => -1)
      case 'F' => (match code[1] case 'R' => 8 case 'I' => 38 case _ => -1)
      case 'E' => (match code[1] case 'S' => 10 case 'G' => 16 case _ => -1)
      case 'B' => (match code[1] case 'R' => 11 case 'D' => 25 case 'E' => 34 case _ => -1)
      case 'M' => (match code[1] case 'X' => 12 case 'Y' => 19 case _ => -1)
      case 'Z' => (match code[1] case 'A' => 14 case _ => -1)
      case 'N' => (match code[1] case 'G' => 15 case 'Z' => 32 case 'L' => 33 case 'O' => 36 case _ => -1)
      case 'K' => (match code[1] case 'E' => 17 case 'R' => 31 case _ => -1)
      case 'S' => (match code[1] case 'G' => 18 case 'A' => 28 case 'E' => 35 case _ => -1)
      case 'T' => (match code[1] case 'H' => 20 case 'R' => 27 case _ => -1)
      case 'P' => (match code[1] case 'H' => 21 case 'K' => 24 case 'L' => 39 case _ => -1)
      case 'V' => (match code[1] case 'N' => 23 case _ => -1)
      case 'R' => (match code[1] case 'U' => 26 case _ => -1)
      case _ => -1
  }

  lemma IndexedA(i: nat)
    requires i < 11
    ensures CodeIndex(Regions[i].code) == i
  {
  }

  lemma IndexedB(i: nat)
    requires 11 <= i < 21
    ensures CodeIndex(Regions[i].code) == i
  {
  }

  lemma IndexedC(i: nat)
    requires 21 <= i < 31
    ensures CodeIndex(Regions[i].code) == i
  {
  }

  lemma IndexedD(i: nat)
    requires 31 <= i < |Regions|
    ensures CodeIndex(Regions[i].code) == i
  {
  }

  /** Every entry sits at the position its code names. */
  lemma EntryIndexed(i: nat)
    requires i < |Regions|
    ensures CodeIndex(Regions[i].code) == i
  {
    if i < 11 { IndexedA(i); }
    else if i < 21 { IndexedB(i); }
    else if i < 31 { IndexedC(i); }
    else { IndexedD(i); }
  }

  /** No two entries share a code. */
  lemma CodesDistinct(i: nat, j: nat)
    requires i < |Regions| && j < |Regions| && Regions[i].code == Regions[j].code
    ensures i == j
  {
    EntryIndexed(i);
    EntryIndexed(j);
  }

  /** Looking up the code of a table entry finds that entry. */
  lemma LookupFindsEntry(code: string, region: Region)
    requires region in Regions && region.code == code
    ensures FindRegion(code) == Some(region)
  {
    var i :| 0 <= i < |Regions| && Regions[i] == region;
    var r := FindRegion(code);
    assert r.Some?;
    var k :| 0 <= k < |Regions| && Regions[k] == r.value && forall j :: 0 <= j < k ==> Regions[j].code != code;
    CodesDistinct(i, k);
  }
}
