/** The pure rules behind the page's four handlers: how an upload batch is
    joined, how an image is removed by position, how one field is updated,
    how a submission is validated and how the server outcome is settled. */
module ListingRules {
  import opened ListingForm

  // ---------------------------------------------------------------------
  // Image batch upload

  /** The pre-check of the upload handler: at least one file, and the batch
      together with the images already held stays below seven. */
  predicate UploadAllowed(batch: nat, held: nat) {
    batch > 0 && batch + held < 7
  }

  /** Waiting for every upload of a batch at once: the batch succeeds only
      when each upload does, and then yields each upload's URL in the order
      of the batch; one failure fails the whole batch. */
  function JoinUploads(results: seq<Option<string>>): (r: Option<seq<string>>)
    ensures r.Some? <==> forall i :: 0 <= i < |results| ==> results[i].Some?
    ensures r.Some? ==> |r.value| == |results|
    ensures r.Some? ==> forall i :: 0 <= i < |results| ==> results[i] == Some(r.value[i])
  {
    if results == [] then Some([])
    else
      match results[0]
      case None => None
      case Some(url) =>
        match JoinUploads(results[1..])
        case None => None
        case Some(rest) => Some([url] + rest)
  }

  /** One attempt to store each file of the batch, in the batch's order. */
  function StoreEach(files: seq<File>, store: File -> Option<string>): seq<Option<string>> {
    seq(|files|, i requires 0 <= i < |files| => store(files[i]))
  }

  /** The outcome of uploading a whole batch: the URLs of all files, in the
      order the files were picked, or a failure when any single file fails. */
  function UploadBatch(files: seq<File>, store: File -> Option<string>): (r: Option<seq<string>>)
    ensures r.Some? <==> forall i :: 0 <= i < |files| ==> store(files[i]).Some?
    ensures r.Some? ==> |r.value| == |files|
    ensures r.Some? ==> forall i :: 0 <= i < |files| ==> store(files[i]) == Some(r.value[i])
  {
    var results := StoreEach(files, store);
    assert forall i :: 0 <= i < |files| ==> results[i] == store(files[i]);
    JoinUploads(results)
  }

  /** An accepted batch that succeeds never takes the list past six images. */
  lemma AcceptedBatchKeepsCap(held: seq<string>, files: seq<File>, store: File -> Option<string>)
    requires UploadAllowed(|files|, |held|)
    requires UploadBatch(files, store).Some?
    ensures |held + UploadBatch(files, store).value| <= MaxImages
    ensures |held + UploadBatch(files, store).value| == |held| + |files|
  {
  }

  // ---------------------------------------------------------------------
  // Image removal by position

  /** The image list filtered by position: every element whose index is not
      `index` is kept, in its order. The definition recurses from the back
      of the list; `FilterIndexRemovesPosition` ties it to dropping the
      element at `index`. */
  function FilterIndex<T>(s: seq<T>, index: int): seq<T> {
    if s == [] then []
    else
      var last := |s| - 1;
      FilterIndex(s[..last], index) + (if last != index then [s[last]] else [])
  }

  /** Removing by position drops exactly the element at `index` and keeps the
      others in their order, duplicates included; an index outside the list
      changes nothing. */
  lemma {:induction false} FilterIndexRemovesPosition<T>(s: seq<T>, index: int)
    ensures 0 <= index < |s| ==> FilterIndex(s, index) == s[..index] + s[index + 1..]
    ensures !(0 <= index < |s|) ==> FilterIndex(s, index) == s
  {
    if s != [] {
      var last := |s| - 1;
      FilterIndexRemovesPosition(s[..last], index);
      if index == last {
        assert s[..last] == s[..index];
        assert s[index + 1..] == [];
      } else if 0 <= index < last {
        calc {
          FilterIndex(s, index);
          s[..last][..index] + s[..last][index + 1..] + [s[last]];
          { assert s[..last][..index] == s[..index];
            assert s[..last][index + 1..] + [s[last]] == s[index + 1..]; }
          s[..index] + s[index + 1..];
        }
      } else {
        assert s[..last] + [s[last]] == s;
      }
    }
  }

  /** Element by element: the list shrinks by one, the elements before the
      removed position keep their index and those after move one to the
      front. */
  lemma RemovalShiftsLater<T>(s: seq<T>, index: int)
    requires 0 <= index < |s|
    ensures |FilterIndex(s, index)| == |s| - 1
    ensures forall j :: 0 <= j < index ==> FilterIndex(s, index)[j] == s[j]
    ensures forall j :: index <= j < |s| - 1 ==> FilterIndex(s, index)[j] == s[j + 1]
  {
    FilterIndexRemovesPosition(s, index);
  }

  /** Exactly one occurrence of the removed URL goes, even when the list
      holds it more than once. */
  lemma RemovalDropsOneOccurrence<T>(s: seq<T>, index: int)
    requires 0 <= index < |s|
    ensures multiset(FilterIndex(s, index)) == multiset(s) - multiset{s[index]}
  {
    FilterIndexRemovesPosition(s, index);
    SliceOutMultiset(s, index);
  }

  /** Cutting one element out of a sequence removes one copy of it from
      the sequence's multiset. */
  lemma SliceOutMultiset<T>(s: seq<T>, index: int)
    requires 0 <= index < |s|
    ensures multiset(s[..index] + s[index + 1..]) == multiset(s) - multiset{s[index]}
  {
    var before, after := s[..index], s[index + 1..];
    assert s == before + ([s[index]] + after);
    assert multiset(s) == multiset(before) + multiset{s[index]} + multiset(after);
  }

  // ---------------------------------------------------------------------
  // Generic field update

  /** What an input stores: the checked state of a checkbox, the text of
      any other input. */
  function InputValue(target: InputTarget): Value {
    if target.inputType == CheckboxType then Flag(target.checked) else Text(target.value)
  }

  /** The record after a change event: the key named by the input's id now
      holds the input's value, every other key keeps its value, and no key
      disappears. */
  function ChangeField(fields: map<string, Value>, target: InputTarget): (r: map<string, Value>)
    ensures r.Keys == fields.Keys + {target.id}
    ensures target.inputType == CheckboxType ==> r[target.id] == Flag(target.checked)
    ensures target.inputType != CheckboxType ==> r[target.id] == Text(target.value)
    ensures forall k :: k in fields && k != target.id ==> r[k] == fields[k]
  {
    fields[target.id := InputValue(target)]
  }

  // ---------------------------------------------------------------------
  // Submission

  /** `+regularPrice < +discountPrice`, where a comparison with NaN is false. */
  predicate DiscountExceedsRegular(fields: map<string, Value>) {
    match (NumericField(fields, RegularPriceKey), NumericField(fields, DiscountPriceKey))
    case (Some(regular), Some(discount)) => regular < discount
    case _ => false
  }

  /** The two submit checks in order, the first failure winning: no image
      at all, then a discount above the regular price. `None` lets the
      request go out. */
  function Validate(imageUrls: seq<string>, fields: map<string, Value>): (r: Option<string>)
    ensures |imageUrls| == 0 ==> r == Some(NoImageMessage)
    ensures |imageUrls| > 0 ==> (r.Some? <==> DiscountExceedsRegular(fields))
    ensures |imageUrls| > 0 && r.Some? ==> r.value == DiscountTooHighMessage
    ensures r == None <==> |imageUrls| > 0 && !DiscountExceedsRegular(fields)
  {
    if |imageUrls| < 1 then Some(NoImageMessage)
    else if DiscountExceedsRegular(fields) then Some(DiscountTooHighMessage)
    else None
  }

  /** Equal prices pass the price check, and so does a price that is not a
      number. */
  lemma EqualOrNaNPricesPass(imageUrls: seq<string>, fields: map<string, Value>)
    requires |imageUrls| > 0
    requires NumericField(fields, RegularPriceKey) == NumericField(fields, DiscountPriceKey)
             || NumericField(fields, RegularPriceKey) == None
             || NumericField(fields, DiscountPriceKey) == None
    ensures Validate(imageUrls, fields) == None
  {
  }

  /** The route of a created listing's page. */
  function ListingRoute(id: string): (route: string)
    ensures |route| == |ListingRoutePrefix| + |id|
    ensures route[..|ListingRoutePrefix|] == ListingRoutePrefix
    ensures route[|ListingRoutePrefix|..] == id
  {
    ListingRoutePrefix + id
  }

  /** How the request ends, as the error notice it leaves and the route it
      navigates to: the page navigates exactly when the listing was created,
      and otherwise shows the message of the reply or of the thrown error. */
  function Settle(outcome: ServerOutcome): (r: (Notice, Option<string>))
    ensures r.1.Some? <==> outcome.Created?
    ensures outcome.Created? ==> r.0 == NoNotice && r.1 == Some(ListingRoute(outcome.id))
    ensures !outcome.Created? ==> r.0 == Shown(outcome.message)
  {
    match outcome
    case SuccessFalse(message) => (Shown(message), None)
    case Created(id) => (NoNotice, Some(ListingRoute(id)))
    case Thrown(message) => (Shown(message), None)
  }

  // ---------------------------------------------------------------------
  // The Sell and Rent checkboxes

  /** As written, ticking the Sell box stores `sale: true` under its own key
      and leaves `type` at "rent": the listing still goes out as a rental,
      and the box, which shows `type == "sale"`, stays unticked. */
  lemma SaleCheckboxLeavesTypeRent()
    ensures var after := ChangeField(InitialFields(), InputTarget("sale", "on", CheckboxType, true));
            after[TypeKey] == Text("rent") && after["sale"] == Flag(true)
  {
  }

  /** The handler as evidently intended: the Sell and Rent boxes set `type`
      to their own id, every other input behaves as before. */
  function IntendedChange(fields: map<string, Value>, target: InputTarget): (r: map<string, Value>)
    ensures target.id == "sale" || target.id == "rent" ==>
              r.Keys == fields.Keys + {TypeKey} && r[TypeKey] == Text(target.id)
              && forall k :: k in fields && k != TypeKey ==> r[k] == fields[k]
    ensures target.id != "sale" && target.id != "rent" ==> r == ChangeField(fields, target)
  {
    if target.id == "sale" || target.id == "rent" then fields[TypeKey := Text(target.id)]
    else ChangeField(fields, target)
  }

  /** Under the intended handler the two boxes are mutually exclusive:
      after ticking one, it shows ticked, the other shows unticked, and the
      listing's type is the one ticked. */
  lemma IntendedTypeBoxesExclusive(fields: map<string, Value>, target: InputTarget)
    requires target.id == "sale" || target.id == "rent"
    ensures var after := IntendedChange(fields, target);
            after[TypeKey] == Text(target.id)
            && (after[TypeKey] == Text("sale") <==> target.id == "sale")
            && (after[TypeKey] == Text("rent") <==> target.id == "rent")
            && forall k :: k in fields && k != TypeKey ==> k in after && after[k] == fields[k]
  {
  }
}
