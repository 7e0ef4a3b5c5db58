/**
 * The post-ad page: the ad form's schema, the bounded image list, the
 * sequential image upload, and the row inserted on submit.
 */
module PostAd {
  import opened Wrappers
  import opened Schema
  import opened Forms

  const MaxImages := 5

  /** Thirty days in milliseconds. */
  const AdLifetimeMs := 30 * 24 * 60 * 60 * 1000

  // ------------------------------------------------------------- the schema

  /** The form as entered; `None` is a field left undefined, `Some("")` a blank one. */
  datatype AdForm = AdForm(
    title: string,
    description: string,
    price: Option<string>,
    priceType: string,
    categoryId: string,
    locationId: string,
    contactPhone: Option<string>,
    contactEmail: Option<string>)

  /** The form after a successful parse: the price type is one of the three. */
  datatype AdValues = AdValues(
    title: string,
    description: string,
    price: Option<string>,
    priceType: PriceType,
    categoryId: string,
    locationId: string,
    contactPhone: Option<string>,
    contactEmail: Option<string>)

  /** Issues for every field but the contact email, in the schema's field order. */
  function FieldIssues(f: AdForm): seq<Issue> {
    MinLength("title", f.title, 10, "Title must be at least 10 characters")
    + MinLength("description", f.description, 20, "Description must be at least 20 characters")
    + (if ParsePriceType(f.priceType).None? then [Issue("priceType", "Invalid enum value")] else [])
    + MinLength("categoryId", f.categoryId, 1, "Please select a category")
    + MinLength("locationId", f.locationId, 1, "Please select a location")
  }

  /** `z.string().email().optional()` as written: only an undefined email escapes the check. */
  function EmailIssuesAsWritten(email: Option<string>, isEmail: string -> bool): seq<Issue> {
    if email.Some? && !isEmail(email.value) then [Issue("contactEmail", "Invalid email")] else []
  }

  /** The optional email as the form means it: blank or undefined is no email at all. */
  function EmailIssues(email: Option<string>, isEmail: string -> bool): seq<Issue> {
    if email.Some? && email.value != "" && !isEmail(email.value) then [Issue("contactEmail", "Invalid email")] else []
  }

  function ToValues(f: AdForm, p: PriceType): AdValues {
    AdValues(f.title, f.description, f.price, p, f.categoryId, f.locationId, f.contactPhone, f.contactEmail)
  }

  /** The declarative acceptance condition of the ad schema (email as intended). */
  predicate AdAcceptable(f: AdForm, isEmail: string -> bool) {
    && |f.title| >= 10
    && |f.description| >= 20
    && f.priceType in {"fixed", "negotiable", "on_request"}
    && f.categoryId != ""
    && f.locationId != ""
    && (f.contactEmail.None? || f.contactEmail.value == "" || isEmail(f.contactEmail.value))
  }

  /** `adSchema` exactly as written. */
  function ParseAdFormAsWritten(f: AdForm, isEmail: string -> bool): (r: Result<AdValues, seq<Issue>>)
    ensures r.Success? <==> AdAcceptable(f, isEmail) && (f.contactEmail.Some? ==> isEmail(f.contactEmail.value))
  {
    var issues := FieldIssues(f) + EmailIssuesAsWritten(f.contactEmail, isEmail);
    if issues == [] then Success(ToValues(f, ParsePriceType(f.priceType).value)) else Failure(issues)
  }

  /**
   * `adSchema` with a blank contact email read as none: accepts exactly the
   * acceptable forms, keeps every field, and otherwise lists the issues.
   */
  function ParseAdForm(f: AdForm, isEmail: string -> bool): (r: Result<AdValues, seq<Issue>>)
    ensures r.Success? <==> AdAcceptable(f, isEmail)
    ensures r.Success? ==> r.value == ToValues(f, r.value.priceType) && PriceTypeName(r.value.priceType) == f.priceType
    ensures r.Failure? ==> r.error != []
    ensures r.Failure? && |f.description| < 20 ==>
              Issue("description", "Description must be at least 20 characters") in r.error
  {
    var issues := FieldIssues(f) + EmailIssues(f.contactEmail, isEmail);
    if issues == [] then Success(ToValues(f, ParsePriceType(f.priceType).value)) else Failure(issues)
  }

  /** A form that is valid in every field but the description, contact fields left at their blank defaults. */
  function SampleForm(description: string): AdForm {
    AdForm("Selling my old bicycle", description, Some("1500"), "fixed", "cat-1", "loc-1", Some(""), Some(""))
  }

  /** The description boundary: 19 characters are rejected, 20 accepted. */
  lemma DescriptionBoundary(isEmail: string -> bool)
    ensures ParseAdForm(SampleForm("abcdefghijklmnopqrs"), isEmail).Failure?
    ensures ParseAdForm(SampleForm("abcdefghijklmnopqrst"), isEmail).Success?
  {
    assert |"abcdefghijklmnopqrs"| == 19;
  }

  /**
   * Under the schema as written the sample form, with its blank email, fails
   * whatever its description; with the email left undefined the description
   * boundary is the same as under the intended schema.
   */
  lemma DescriptionBoundaryAsWritten(isEmail: string -> bool, description: string)
    requires !isEmail("")
    ensures ParseAdFormAsWritten(SampleForm(description), isEmail).Failure?
    ensures ParseAdFormAsWritten(SampleForm("abcdefghijklmnopqrs").(contactEmail := None), isEmail).Failure?
    ensures ParseAdFormAsWritten(SampleForm("abcdefghijklmnopqrst").(contactEmail := None), isEmail).Success?
  {
    assert |"abcdefghijklmnopqrs"| == 19;
  }

  /** As written, a form left with its blank contact email cannot be submitted. */
  lemma BlankEmailRejectedAsWritten(f: AdForm, isEmail: string -> bool)
    requires !isEmail("")
    requires AdAcceptable(f, isEmail) && f.contactEmail == Some("")
    ensures ParseAdFormAsWritten(f, isEmail).Failure?
    ensures ParseAdForm(f, isEmail).Success?
  {
  }

  // ------------------------------------------------------------ the images

  datatype File = File(name: string, size: nat)

  /** `prev.filter((_, i) => i !== index)` */
  function WithoutIndex<T>(s: seq<T>, index: int): seq<T>
    decreases |s|
  {
    if s == [] then [] else (if index == 0 then [] else [s[0]]) + WithoutIndex(s[1..], index - 1)
  }

  /** Removing at an index drops that element only; an index out of range changes nothing. */
  lemma {:induction false} WithoutIndexEffect<T>(s: seq<T>, index: int)
    ensures 0 <= index < |s| ==> WithoutIndex(s, index) == s[..index] + s[index + 1..]
    ensures (index < 0 || index >= |s|) ==> WithoutIndex(s, index) == s
    decreases |s|
  {
    if s != [] {
      WithoutIndexEffect(s[1..], index - 1);
      if index == 0 {
        assert WithoutIndex(s, index) == WithoutIndex(s[1..], -1) == s[1..];
        assert s[..0] + s[1..] == s[1..];
      } else {
        assert WithoutIndex(s, index) == [s[0]] + WithoutIndex(s[1..], index - 1);
        if 0 < index < |s| {
          assert s[..index] == [s[0]] + s[1..][..index - 1];
          assert s[index + 1..] == s[1..][index..];
        } else {
          assert s == [s[0]] + s[1..];
        }
      }
    }
  }

  class ImagePicker {
    var images: seq<File>

    ghost predicate Valid()
      reads this
    {
      |images| <= MaxImages
    }

    constructor ()
      ensures Valid() && images == []
    {
      images := [];
    }

    /** `handleImageUpload`: all the chosen files after the existing ones, or none if that would exceed five. */
    method HandleImageUpload(files: seq<File>) returns (accepted: bool)
      modifies this
      ensures accepted <==> |old(images)| + |files| <= MaxImages
      ensures images == if accepted then old(images) + files else old(images)
      ensures old(Valid()) ==> Valid()
    {
      if |images| + |files| > MaxImages {
        return false;
      }
      images := images + files;
      accepted := true;
    }

    /** `removeImage` */
    method RemoveImage(index: int)
      modifies this
      ensures images == WithoutIndex(old(images), index)
      ensures 0 <= index < |old(images)| ==> images == old(images)[..index] + old(images)[index + 1..]
      ensures (index < 0 || index >= |old(images)|) ==> images == old(images)
      ensures old(Valid()) ==> Valid()
    {
      WithoutIndexEffect(images, index);
      images := WithoutIndex(images, index);
    }
  }

  // ------------------------------------------------------------- uploading

  /** The storage service's answer to one upload, with the file's public URL. */
  datatype UploadResult = Stored(publicUrl: string) | StoreFailed(message: string)

  /**
   * Uploading the files one after another: every URL in file order, or the
   * first failure, after which nothing more is uploaded.
   */
  function UploadSequence(images: seq<File>, store: File -> UploadResult): (r: Result<seq<string>, string>)
    ensures r.Success? <==> forall k :: 0 <= k < |images| ==> store(images[k]).Stored?
    ensures r.Success? ==> |r.value| == |images|
    ensures r.Success? ==> forall k :: 0 <= k < |images| ==> r.value[k] == store(images[k]).publicUrl
    ensures r.Failure? ==>
              exists k :: (0 <= k < |images| && store(images[k]) == StoreFailed(r.error) &&
                           forall j :: 0 <= j < k ==> store(images[j]).Stored?)
    decreases |images|
  {
    if images == [] then Success([])
    else
      var before := images[..|images| - 1];
      var last := images[|images| - 1];
      match UploadSequence(before, store)
      case Failure(e) =>
        assert forall k :: 0 <= k < |before| ==> before[k] == images[k];
        Failure(e)
      case Success(urls) =>
        assert forall k :: 0 <= k < |before| ==> before[k] == images[k];
        match store(last)
        case StoreFailed(e) => Failure(e)
        case Stored(url) => Success(urls + [url])
  }

  /** `uploadImages` */
  method UploadImages(images: seq<File>, store: File -> UploadResult) returns (r: Result<seq<string>, string>)
    ensures r == UploadSequence(images, store)
  {
    var uploadedUrls: seq<string> := [];
    var i := 0;
    while i < |images|
      invariant 0 <= i <= |images|
      invariant UploadSequence(images[..i], store) == Success(uploadedUrls)
    {
      assert images[..i + 1][..i] == images[..i];
      match store(images[i]) {
        case StoreFailed(e) =>
          r := Failure(e);
          UploadFailureStops(images, i + 1, store);
          return;
        case Stored(url) =>
          uploadedUrls := uploadedUrls + [url];
      }
      i := i + 1;
    }
    assert images[..i] == images;
    r := Success(uploadedUrls);
  }

  /** Once a prefix fails, the whole upload fails with the same error. */
  lemma {:induction false} UploadFailureStops(images: seq<File>, n: nat, store: File -> UploadResult)
    requires n <= |images| && UploadSequence(images[..n], store).Failure?
    ensures UploadSequence(images, store) == UploadSequence(images[..n], store)
    decreases |images| - n
  {
    if n < |images| {
      assert images[..n + 1][..n] == images[..n];
      UploadFailureStops(images, n + 1, store);
    } else {
      assert images[..n] == images;
    }
  }

  // ------------------------------------------------------------ submitting

  /** The record sent to `ads.insert`; the database fills in the other columns. */
  datatype AdInsert = AdInsert(
    title: string,
    description: string,
    price: Option<int>,
    price_type: PriceType,
    category_id: string,
    location_id: string,
    user_id: string,
    images: seq<string>,
    contact_phone: Option<string>,
    contact_email: Option<string>,
    status: Status,
    expires_at: int)

  /**
   * The inserted record. `parsePrice` is `parseFloat` (`None` for NaN, which
   * the client library sends as null); `now` is the client clock in ms.
   */
  function NewAdRecord(values: AdValues, user: User, imageUrls: seq<string>, now: int,
                       parsePrice: string -> Option<int>): (r: AdInsert)
    ensures r.status == Pending && r.user_id == user.id && r.images == imageUrls
    ensures r.expires_at == now + AdLifetimeMs
    ensures (values.price.None? || values.price == Some("")) ==> r.price.None?
    ensures values.price.Some? && values.price.value != "" ==> r.price == parsePrice(values.price.value)
    ensures r.contact_email == if values.contactEmail.Some? && values.contactEmail.value != ""
                               then values.contactEmail else user.email
    ensures r.title == values.title && r.description == values.description && r.price_type == values.priceType
    ensures r.category_id == values.categoryId && r.location_id == values.locationId
    ensures r.contact_phone == values.contactPhone
  {
    AdInsert(
      values.title,
      values.description,
      if values.price.Some? && values.price.value != "" then parsePrice(values.price.value) else None,
      values.priceType,
      values.categoryId,
      values.locationId,
      user.id,
      imageUrls,
      values.contactPhone,
      if values.contactEmail.Some? && values.contactEmail.value != "" then values.contactEmail else user.email,
      Pending,
      now + AdLifetimeMs)
  }

  datatype SubmitOutcome = NotSignedIn | Failed(message: string) | Inserted(record: AdInsert)

  /**
   * `onSubmit`: nothing without a user; upload the images (if any), then
   * insert the record. An upload failure or an insert error is reported and
   * nothing is inserted.
   */
  method OnSubmit(user: Option<User>, values: AdValues, images: seq<File>, store: File -> UploadResult,
                  now: int, parsePrice: string -> Option<int>, insertError: Option<string>)
    returns (o: SubmitOutcome)
    ensures user.None? ==> o == NotSignedIn
    ensures user.Some? ==>
              o == match UploadSequence(images, store)
                   case Failure(e) => Failed(e)
                   case Success(urls) =>
                     if insertError.Some? then Failed(insertError.value)
                     else Inserted(NewAdRecord(values, user.value, urls, now, parsePrice))
    ensures o.Inserted? ==> o.record.status == Pending && |o.record.images| == |images|
  {
    if user.None? {
      return NotSignedIn;
    }
    var imageUrls: Result<seq<string>, string> := Success([]);
    if |images| > 0 {
      imageUrls := UploadImages(images, store);
    }
    if imageUrls.Failure? {
      return Failed(imageUrls.error);
    }
    if insertError.Some? {
      return Failed(insertError.value);
    }
    o := Inserted(NewAdRecord(values, user.value, imageUrls.value, now, parsePrice));
  }

  /**
   * A blank contact email passes the intended schema and the record falls back
   * to the signed-in user's email.
   */
  lemma BlankEmailFallsBack(f: AdForm, isEmail: string -> bool, user: User, urls: seq<string>,
                            now: int, parsePrice: string -> Option<int>)
    requires AdAcceptable(f, isEmail) && f.contactEmail == Some("")
    ensures ParseAdForm(f, isEmail).Success?
    ensures NewAdRecord(ParseAdForm(f, isEmail).value, user, urls, now, parsePrice).contact_email == user.email
  {
  }

  /**
   * The bicycle example: a valid form with price "1500" and no images gives a
   * pending record with no images, price 1500, expiry thirty days on, the blank
   * phone kept as it is and the user's own email as contact.
   */
  lemma BicycleExample(isEmail: string -> bool, user: User, now: int, parsePrice: string -> Option<int>)
    requires parsePrice("1500") == Some(1500)
    ensures ParseAdForm(SampleForm("A well kept blue bicycle."), isEmail).Success?
    ensures var r := NewAdRecord(ParseAdForm(SampleForm("A well kept blue bicycle."), isEmail).value,
                                 user, [], now, parsePrice);
            && r.status == Pending && r.images == [] && r.price == Some(1500) && r.expires_at == now + 2592000000
            && r.contact_phone == Some("") && r.contact_email == user.email
  {
    assert |"A well kept blue bicycle."| == 25;
  }
}
