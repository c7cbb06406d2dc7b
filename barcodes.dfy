/**
  The result formatter of the scanner screen: one detected barcode becomes one
  fixed-template display string, and a list of detections is folded into the
  result text the way `extractBarcodeQrCodeInfo` overwrites it, so that the last
  detection wins.
 */
module Barcodes {
  import opened Values
  import opened Decimal

  /** The vision library's value-type tags that the screen gives a template of their own. */
  const TYPE_TEXT := 7
  const TYPE_URL := 8
  const TYPE_WIFI := 9

  /** A value type that falls to the `else` branch of the template choice. */
  type OtherCode = t: int | t != TYPE_TEXT && t != TYPE_URL && t != TYPE_WIFI witness 0

  /**
    One detection as the vision library reports it, reduced to what the screen reads.
    The library tags each detection with a value type; TYPE_WIFI, TYPE_URL and TYPE_TEXT
    get their own constructor, and `Other` carries any other value type.
    String fields are nullable in the library (`String?`).
   */
  datatype Barcode =
    | Wifi(ssid: Option<string>, password: Option<string>, encryptionType: int)
    | Url(title: Option<string>, url: Option<string>)
    | Text(rawValue: Option<string>)
    | Other(valueType: OtherCode)

  /** The value-type tag the library attached to the detection. */
  function ValueType(b: Barcode): (t: int)
    ensures t == TYPE_WIFI <==> b.Wifi?
    ensures t == TYPE_URL <==> b.Url?
    ensures t == TYPE_TEXT <==> b.Text?
  {
    match b
    case Wifi(_, _, _) => TYPE_WIFI
    case Url(_, _) => TYPE_URL
    case Text(_) => TYPE_TEXT
    case Other(valueType) => valueType
  }

  datatype Kind = WifiKind | UrlKind | TextKind | OtherKind

  function KindOf(b: Barcode): Kind {
    match b
    case Wifi(_, _, _) => WifiKind
    case Url(_, _) => UrlKind
    case Text(_) => TextKind
    case Other(_) => OtherKind
  }

  const WIFI_PREFIX := "SSID: "
  const URL_PREFIX := "Title: "
  const TEXT_PREFIX := "Text: "
  const OTHER_PREFIX := "Barcode Type: "
  const BLANK_LINE := "\n\n"

  predicate EndsWithBlankLine(s: string) {
    |s| >= 2 && s[|s| - 2..] == BLANK_LINE
  }

  /**
    A reader's classification of a display string by its first line's label:
    the reference against which the templates are checked to be told apart.
   */
  function DisplayKind(s: string): Option<Kind> {
    if WIFI_PREFIX <= s then Some(WifiKind)
    else if URL_PREFIX <= s then Some(UrlKind)
    else if TEXT_PREFIX <= s then Some(TextKind)
    else if OTHER_PREFIX <= s then Some(OtherKind)
    else None
  }

  /**
    The text shown for one detection: the `when (valueType)` branches.
    Every template ends in a blank line, and its leading label tells which kind
    of detection produced it: the four templates cannot be mistaken for each other.
   */
  function Format(b: Barcode): (r: string)
    ensures EndsWithBlankLine(r)
    ensures DisplayKind(r) == Some(KindOf(b))
  {
    match b
    case Wifi(ssid, password, encryptionType) =>
      var r := WIFI_PREFIX + ShowNullable(ssid) + "\nPassword: " + ShowNullable(password)
               + "\nType: " + IntToDecimal(encryptionType) + BLANK_LINE;
      assert r[|r| - 2..] == BLANK_LINE && WIFI_PREFIX <= r;
      r
    case Url(title, url) =>
      var r := URL_PREFIX + ShowNullable(title) + "\nURL: " + ShowNullable(url) + BLANK_LINE;
      assert r[|r| - 2..] == BLANK_LINE && r[0] == 'T' && r[1] == 'i' && URL_PREFIX <= r;
      r
    case Text(rawValue) =>
      var r := TEXT_PREFIX + ShowNullable(rawValue) + BLANK_LINE;
      assert r[|r| - 2..] == BLANK_LINE && r[0] == 'T' && r[1] == 'e' && TEXT_PREFIX <= r;
      r
    case Other(valueType) =>
      var r := OTHER_PREFIX + IntToDecimal(valueType) + BLANK_LINE;
      assert r[|r| - 2..] == BLANK_LINE && r[0] == 'B' && OTHER_PREFIX <= r;
      r
  }

  /** The `when (valueType)` choice: each tag selects its own template, any other tag the generic one. */
  lemma FormatFollowsTag(b: Barcode)
    ensures ValueType(b) == TYPE_WIFI ==> DisplayKind(Format(b)) == Some(WifiKind)
    ensures ValueType(b) == TYPE_URL ==> DisplayKind(Format(b)) == Some(UrlKind)
    ensures ValueType(b) == TYPE_TEXT ==> DisplayKind(Format(b)) == Some(TextKind)
    ensures ValueType(b) !in {TYPE_WIFI, TYPE_URL, TYPE_TEXT} ==>
      b == Other(ValueType(b)) && DisplayKind(Format(b)) == Some(OtherKind)
  {
  }

  /** The payload line of a text display, or None when the string is not one. */
  function TextPayload(s: string): Option<string> {
    if DisplayKind(s) == Some(TextKind) && EndsWithBlankLine(s) && |s| >= |TEXT_PREFIX| + |BLANK_LINE|
    then Some(s[|TEXT_PREFIX|..|s| - 2])
    else None
  }

  /** The value type written in an "other" display, or None when the string is not one. */
  function OtherValueType(s: string): Option<int> {
    if DisplayKind(s) == Some(OtherKind) && EndsWithBlankLine(s) && |s| >= |OTHER_PREFIX| + |BLANK_LINE|
    then ParseInt(s[|OTHER_PREFIX|..|s| - 2])
    else None
  }

  /** A text detection's display gives back exactly the interpolated raw value. */
  lemma TextRoundTrip(rawValue: Option<string>)
    ensures TextPayload(Format(Text(rawValue))) == Some(ShowNullable(rawValue))
  {
    var s := Format(Text(rawValue));
    assert s == TEXT_PREFIX + ShowNullable(rawValue) + BLANK_LINE;
    assert s[|TEXT_PREFIX|..|s| - 2] == ShowNullable(rawValue);
  }

  /** An "other" detection's display gives back its value type. */
  lemma OtherRoundTrip(valueType: OtherCode)
    ensures OtherValueType(Format(Other(valueType))) == Some(valueType)
  {
    var s := Format(Other(valueType));
    assert s == OTHER_PREFIX + IntToDecimal(valueType) + BLANK_LINE;
    assert s[|OTHER_PREFIX|..|s| - 2] == IntToDecimal(valueType);
    IntRoundTrip(valueType);
  }

  /** Two "other" detections with different value types are displayed differently. */
  lemma OtherDisplayInjective(t1: OtherCode, t2: OtherCode)
    ensures Format(Other(t1)) == Format(Other(t2)) ==> t1 == t2
  {
    OtherRoundTrip(t1);
    OtherRoundTrip(t2);
  }

  /**
    A null raw value and the literal text "null" cannot be told apart on screen,
    because the template interpolates the nullable value.
   */
  lemma NullRawValueLooksLikeLiteral()
    ensures Format(Text(None)) == Format(Text(Some("null")))
    ensures Text(None) != Text(Some("null"))
  {
  }

  /**
    The result text after the loop of `extractBarcodeQrCodeInfo` has run over
    `barcodes`, starting from `text`: each detection in turn overwrites it, so
    the last detection wins and an empty list leaves the text as it was.
   */
  function DisplayAfter(text: string, barcodes: seq<Barcode>): (r: string)
    ensures barcodes == [] ==> r == text
    ensures barcodes != [] ==> r == Format(barcodes[|barcodes| - 1])
    decreases |barcodes|
  {
    if barcodes == [] then text
    else
      var rest := barcodes[1..];
      assert rest != [] ==> rest[|rest| - 1] == barcodes[|barcodes| - 1];
      DisplayAfter(Format(barcodes[0]), rest)
  }

  /** Two scans that end in the same detection show the same text, whatever preceded them. */
  lemma EarlierDetectionsIgnored(t1: string, t2: string, xs: seq<Barcode>, ys: seq<Barcode>, b: Barcode)
    ensures DisplayAfter(t1, xs + [b]) == DisplayAfter(t2, ys + [b])
  {
  }

  /** One Wi-Fi detection (ML Kit reports the encryption type as an Int; 2 is WPA). */
  lemma WifiExample(text: string)
    ensures DisplayAfter(text, [Wifi(Some("Net1"), Some("pw1"), 2)]) == "SSID: Net1\nPassword: pw1\nType: 2\n\n"
  {
  }

  /** A URL detection followed by a text detection: only the text one is shown. */
  lemma UrlThenTextExample(text: string, title: Option<string>, url: Option<string>, rawValue: Option<string>)
    ensures DisplayAfter(text, [Url(title, url), Text(rawValue)]) == "Text: " + ShowNullable(rawValue) + "\n\n"
  {
  }
}
