/** The draft listing held by the "Create a Listing" page: the values its form
    record stores, the page's fixed messages and limits, and the way the page
    turns a stored value into a number when it compares prices. */
module ListingForm {

  datatype Option<+T> = None | Some(value: T)

  /** A value stored under a key of the form record. Text inputs store the
      string they hold, checkboxes store a boolean, and the initial record
      holds a few numbers. */
  datatype Value = Text(text: string) | Number(number: int) | Flag(flag: bool)

  /** The state behind `imageUploadError` and `error`: either `false`
      (nothing shown) or the message on display. */
  datatype Notice = NoNotice | Shown(message: string)

  /** A file picked in the file input; the uploader only ever hands it on. */
  datatype File = File(name: string, size: nat)

  /** The fields of the change event's target that the field handler reads.
      `inputType` is the element's `type` attribute. */
  datatype InputTarget = InputTarget(id: string, value: string, inputType: string, checked: bool)

  /** What the listing-creation request ends in: a JSON reply with
      `success: false` and a message, any other reply (its `_id` names the
      new listing), or an error thrown by the request or by reading its body. */
  datatype ServerOutcome = SuccessFalse(message: string) | Created(id: string) | Thrown(message: string)

  /** The JSON body the page posts: every field of the record, the image
      list, and the current user's id as `userRef`. */
  datatype Listing = Listing(fields: map<string, Value>, imageUrls: seq<string>, userRef: string)

  const MaxImages: nat := 6
  const ImageUrlsKey: string := "imageUrls"
  const RegularPriceKey: string := "regularPrice"
  const DiscountPriceKey: string := "discountPrice"
  const TypeKey: string := "type"
  const CheckboxType: string := "checkbox"
  const ListingRoutePrefix: string := "/listing/"

  const TooManyImagesMessage: string := "You can only upload 6 images per listing"
  const UploadFailedMessage: string := "Image upload failed (2 MB max per image)"
  const NoImageMessage: string := "You must upload at least one image"
  const DiscountTooHighMessage: string := "Discount price must be lower than regular price"

  /** The form record the page starts with, apart from its empty image list. */
  function InitialFields(): (m: map<string, Value>)
    ensures ImageUrlsKey !in m
    ensures TypeKey in m && m[TypeKey] == Text("rent")
    ensures RegularPriceKey in m && m[RegularPriceKey] == Number(50)
    ensures DiscountPriceKey in m && m[DiscountPriceKey] == Number(0)
  {
    map[
      "name" := Text(""),
      "description" := Text(""),
      "address" := Text(""),
      TypeKey := Text("rent"),
      "bedrooms" := Number(1),
      "bathrooms" := Number(1),
      RegularPriceKey := Number(50),
      DiscountPriceKey := Number(0),
      "offer" := Flag(false),
      "parking" := Flag(false),
      "furnished" := Flag(false)
    ]
  }

  predicate IsDigit(c: char) {
    '0' <= c <= '9'
  }

  predicate AllDigits(s: string) {
    forall i :: 0 <= i < |s| ==> IsDigit(s[i])
  }

  /** The number a string of decimal digits denotes; the empty string is 0. */
  function DecimalValue(s: string): (n: nat)
    requires AllDigits(s)
    ensures n == 0 <==> forall i :: 0 <= i < |s| ==> s[i] == '0'
  {
    if s == [] then 0
    else
      var last := s[|s| - 1] as int - '0' as int;
      assert forall i :: 0 <= i < |s| - 1 ==> s[..|s| - 1][i] == s[i];
      DecimalValue(s[..|s| - 1]) * 10 + last
  }

  function Pow10(k: nat): (p: nat)
    ensures p >= 1
  {
    if k == 0 then 1 else 10 * Pow10(k - 1)
  }

  /** Leading zeros do not change the number a digit string denotes, as
      `+"007"` is 7. */
  lemma {:induction false} LeadingZeroIgnored(s: string)
    requires AllDigits(s)
    ensures AllDigits(['0'] + s) && DecimalValue(['0'] + s) == DecimalValue(s)
  {
    var z := ['0'] + s;
    assert forall i :: 0 <= i < |z| ==> IsDigit(z[i]);
    if s != [] {
      var prefix := s[..|s| - 1];
      assert AllDigits(prefix) by {
        assert forall i :: 0 <= i < |prefix| ==> prefix[i] == s[i];
      }
      LeadingZeroIgnored(prefix);
      assert z[..|z| - 1] == ['0'] + prefix;
      assert z[|z| - 1] == s[|s| - 1];
    }
  }

  /** A digit string of length k denotes a number below 10^k: each digit
      holds one decimal place. */
  lemma {:induction false} DecimalValueBelowPow10(s: string)
    requires AllDigits(s)
    ensures DecimalValue(s) < Pow10(|s|)
  {
    if s != [] {
      var prefix := s[..|s| - 1];
      assert AllDigits(prefix) by {
        assert forall i :: 0 <= i < |prefix| ==> prefix[i] == s[i];
      }
      DecimalValueBelowPow10(prefix);
      var last := s[|s| - 1] as int - '0' as int;
      assert 0 <= last <= 9;
      assert DecimalValue(s) == DecimalValue(prefix) * 10 + last;
      assert DecimalValue(prefix) + 1 <= Pow10(|prefix|);
      assert (DecimalValue(prefix) + 1) * 10 <= Pow10(|prefix|) * 10;
      assert Pow10(|s|) == 10 * Pow10(|prefix|);
    }
  }

  /** JavaScript's unary plus on a stored value, with `None` for NaN:
      numbers stay, booleans give 1 or 0, a digit string gives its decimal
      value, and any other text gives NaN. */
  function ToNumber(v: Value): (r: Option<int>)
    ensures v.Number? ==> r == Some(v.number)
    ensures v.Flag? ==> r == Some(if v.flag then 1 else 0)
    ensures v.Text? ==> (r.Some? <==> AllDigits(v.text))
    ensures v.Text? && AllDigits(v.text) ==> r == Some(DecimalValue(v.text))
  {
    match v
    case Number(n) => Some(n)
    case Flag(b) => Some(if b then 1 else 0)
    case Text(s) => if AllDigits(s) then Some(DecimalValue(s)) else None
  }

  /** `+formData[key]`: a missing key reads as `undefined`, which is NaN. */
  function NumericField(fields: map<string, Value>, key: string): (r: Option<int>)
    ensures key !in fields ==> r == None
    ensures key in fields ==> r == ToNumber(fields[key])
  {
    if key in fields then ToNumber(fields[key]) else None
  }
}
