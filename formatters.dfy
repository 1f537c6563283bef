/**
 * The display helpers: the price tier, the street / city split of an
 * address, the bedroom and bathroom wording, and truncation of long text.
 */
module Formatters {
  import opened Text

  // ---------------------------------------------------------------------
  // formatPrice
  // ---------------------------------------------------------------------

  /** The three forms `formatPrice` chooses between. */
  datatype Tier = Millions | Thousands | Plain

  /** Which form `formatPrice` uses for a price. */
  function PriceTier(price: int): (t: Tier)
    ensures t == Millions <==> price >= 1000000
    ensures t == Thousands <==> 1000 <= price < 1000000
    ensures t == Plain <==> price < 1000
  {
    if price >= 1000000 then Millions
    else if price >= 1000 then Thousands
    else Plain
  }

  function TierRank(t: Tier): nat {
    match t
    case Plain => 0
    case Thousands => 1
    case Millions => 2
  }

  /** A dearer listing never gets a smaller tier. */
  lemma PriceTierMonotone(p: int, q: int)
    requires p <= q
    ensures TierRank(PriceTier(p)) <= TierRank(PriceTier(q))
  {
  }

  function Suffix(t: Tier): string {
    match t
    case Millions => "M"
    case Thousands => "K"
    case Plain => ""
  }

  /**
   * `formatPrice`: a dollar sign, the number text, and the tier's suffix.
   * The number text (`toFixed` of the scaled price, or `toLocaleString`) is
   * the parameter `number`.
   */
  function FormatPrice(price: int, number: string): (r: string)
    ensures |r| >= 1 && r[0] == '$'
    ensures price >= 1000000 <==> r == "$" + number + "M"
    ensures 1000 <= price < 1000000 <==> r == "$" + number + "K"
    ensures price < 1000 <==> r == "$" + number
  {
    var prefix := "$" + number;
    assert (prefix + "M")[|prefix|] == 'M' && (prefix + "K")[|prefix|] == 'K';
    prefix + Suffix(PriceTier(price))
  }

  // ---------------------------------------------------------------------
  // formatAddress
  // ---------------------------------------------------------------------

  datatype AddressParts = AddressParts(street: string, cityState: string)

  /**
   * `formatAddress`: with a comma, the trimmed text before the first comma
   * and the trimmed text after it (later commas kept); without one, the
   * whole address, untrimmed, and an empty second line.
   */
  function FormatAddress(address: string): (r: AddressParts)
    ensures ',' in address ==> r.street == Trim(address[..IndexOf(address, ',')])
    ensures ',' in address ==> r.cityState == Trim(address[IndexOf(address, ',') + 1..])
    ensures ',' !in address ==> r == AddressParts(address, "")
  {
    var parts := Split(address, ',');
    SplitAtFirst(address, ',');
    if |parts| >= 2 then
      var street := parts[0];
      var rest := Join(parts[1..], ',');
      assert street == address[..IndexOf(address, ',')];
      assert rest == address[IndexOf(address, ',') + 1..];
      AddressParts(Trim(street), Trim(rest))
    else AddressParts(address, "")
  }

  /**
   * The street never holds a comma, and when the two pieces carry no
   * surrounding white space they rejoin, around one comma, to the address.
   */
  lemma AddressRejoins(address: string)
    requires ',' in address
    ensures ',' !in FormatAddress(address).street
    ensures |FormatAddress(address).street| + |FormatAddress(address).cityState| < |address|
    ensures var i := IndexOf(address, ',');
            Trim(address[..i]) == address[..i] && Trim(address[i + 1..]) == address[i + 1..] ==>
              FormatAddress(address).street + "," + FormatAddress(address).cityState == address
  {
    var i := IndexOf(address, ',');
    var r := FormatAddress(address);
    PiecesRejoin(address, i, Trim(address[..i]), Trim(address[i + 1..]));
  }

  /** The text around position `i`, each piece trimmed. */
  lemma PiecesRejoin(address: string, i: nat, street: string, cityState: string)
    requires i < |address| && address[i] == ',' && ',' !in address[..i]
    requires street == Trim(address[..i]) && cityState == Trim(address[i + 1..])
    ensures ',' !in street
    ensures |street| + |cityState| < |address|
    ensures street == address[..i] && cityState == address[i + 1..] ==> street + "," + cityState == address
  {
    TrimKeepsElements(address[..i]);
    assert address == address[..i] + [address[i]] + address[i + 1..];
  }

  // ---------------------------------------------------------------------
  // getBedroomText, getBathroomText
  // ---------------------------------------------------------------------

  /** `${n} ${unit}s`, or `1 ${unit}` for exactly one. */
  function CountText(n: int, unit: string): (r: string)
    ensures r == IntToString(n) + " " + unit + (if n == 1 then "" else "s")
  {
    if n == 1 then "1 " + unit else IntToString(n) + " " + unit + "s"
  }

  /** `getBedroomText`: "1 bed", else "n beds". */
  function BedroomText(bedrooms: int): (r: string)
    ensures bedrooms == 1 ==> r == "1 bed"
    ensures bedrooms != 1 ==> r == IntToString(bedrooms) + " beds"
  {
    CountText(bedrooms, "bed")
  }

  /** `getBathroomText`: "1 bath", else "n baths". */
  function BathroomText(bathrooms: int): (r: string)
    ensures bathrooms == 1 ==> r == "1 bath"
    ensures bathrooms != 1 ==> r == IntToString(bathrooms) + " baths"
  {
    CountText(bathrooms, "bath")
  }

  /**
   * The wording is plural exactly when the count is not one, and the text
   * before the first space is the decimal count, which reads back as it.
   */
  lemma CountTextReadsBack(n: nat, unit: string)
    ensures n != 1 <==> CountText(n, unit) == NatToString(n) + " " + unit + "s"
    ensures ' ' in CountText(n, unit)
    ensures var r := CountText(n, unit);
            r[..IndexOf(r, ' ')] == NatToString(n) && ParseDigits(r[..IndexOf(r, ' ')]) == n
  {
    var d := NatToString(n);
    var r := CountText(n, unit);
    var tail := " " + unit + (if n == 1 then "" else "s");
    assert r == d + tail;
    assert r[|d|] == ' ';
    assert ' ' !in d by {
      assert forall i :: 0 <= i < |d| ==> IsDigit(d[i]);
    }
    assert r[..|d|] == d;
    IndexOfFirst(r, ' ', |d|);
    ParseNatToString(n);
  }

  // ---------------------------------------------------------------------
  // truncateText
  // ---------------------------------------------------------------------

  const DefaultMaxLength: int := 150

  /** `substring(0, m)` clamps a negative end to 0. */
  function Clamp(m: int, len: nat): (k: nat)
    ensures k <= len
    ensures 0 <= m <= len ==> k == m
  {
    if m < 0 then 0 else if m > len then len else m
  }

  /**
   * `truncateText`: text within the limit is returned whole; longer text is
   * cut to the limit, trimmed, and closed with "...".
   */
  function TruncateText(text: string, maxLength: int): (r: string)
    ensures |text| <= maxLength ==> r == text
    ensures |text| > maxLength ==> r == Trim(text[..Clamp(maxLength, |text|)]) + "..."
    ensures |text| > maxLength ==> |r| <= Clamp(maxLength, |text|) + 3 && r[|r| - 3..] == "..."
  {
    if |text| <= maxLength then text
    else
      var t := Trim(text[..Clamp(maxLength, |text|)]);
      assert (t + "...")[|t|..] == "...";
      t + "..."
  }

  /**
   * A truncated text is its own prefix of at most the limit, with white space
   * dropped from both ends, followed by "..."; in every case the result is no
   * longer than the limit plus three.
   */
  lemma TruncateBounds(text: string, maxLength: nat)
    ensures |TruncateText(text, maxLength)| <= maxLength + 3
    ensures |text| > maxLength ==>
      var r := TruncateText(text, maxLength);
      var cut := text[..maxLength];
      r[..|r| - 3] == cut[TrimOffset(cut)..TrimOffset(cut) + |r| - 3]
  {
  }

  /**
   * With the default limit of 150, text of at most 150 characters is kept
   * whole and nothing longer than 153 is ever returned.
   */
  lemma TruncateDefault(text: string)
    ensures |text| <= 150 ==> TruncateText(text, DefaultMaxLength) == text
    ensures |TruncateText(text, DefaultMaxLength)| <= 153
  {
    TruncateBounds(text, 150);
  }
}
