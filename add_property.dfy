/** pages/AddProperty.tsx: the two-step wizard that publishes a listing. */
module ListingWizard {
  import opened Types
  import opened RowIds
  import Api

  datatype ListingForm = ListingForm(
    propertyType: PropertyType,
    roomType: RoomType,
    rent: int,
    address: string,
    description: string,
    coordinates: Coordinates,
    images: seq<string>)

  /** A single room, single sharing, at 5000, with no address, description or
      images, located at the centre of Pune. */
  const InitialListing: ListingForm :=
    ListingForm(Room, Single, 5000, "", "", Coordinates(18.5204, 73.8567), [])

  const DefaultImage: string := "https://picsum.photos/seed/default/600/400"
  const BadRent: string := "Please enter a valid rent amount"
  const NoDescription: string := "Please provide a short description for your advertisement"
  const NoLocation: string := "Please select the exact location on the map to help seekers find your room"
  const PublishFailed: string := "Something went wrong while publishing your ad. Please try again."

  /** validateStep1: the rent is checked first, then the description; `''` means valid. */
  function ValidateStep1(f: ListingForm): (msg: string)
    ensures msg == "" <==> f.rent > 0 && f.description != ""
    ensures f.rent <= 0 ==> msg == BadRent
    ensures f.rent > 0 && f.description == "" ==> msg == NoDescription
  {
    if f.rent == 0 || f.rent <= 0 then BadRent
    else if f.description == "" then NoDescription
    else ""
  }

  /** The images sent: the form's, or the one placeholder when there are none. */
  function SubmittedImages(images: seq<string>): (r: seq<string>)
    ensures |r| >= 1
    ensures images != [] ==> r == images
    ensures images == [] ==> r == [DefaultImage]
  {
    if |images| > 0 then images else [DefaultImage]
  }

  /** `images.filter((_, i) => i !== idx)`, with `from` the index of `s[0]`. */
  function DropIndexFrom(s: seq<string>, idx: int, from: int): seq<string>
  {
    if s == [] then []
    else if from == idx then DropIndexFrom(s[1..], idx, from + 1)
    else [s[0]] + DropIndexFrom(s[1..], idx, from + 1)
  }

  function RemoveImageAt(s: seq<string>, idx: int): seq<string>
  {
    DropIndexFrom(s, idx, 0)
  }

  lemma {:induction false} DropIndexFromMeaning(s: seq<string>, idx: int, from: int)
    ensures from <= idx < from + |s| ==>
      DropIndexFrom(s, idx, from) == s[..idx - from] + s[idx - from + 1..]
    ensures !(from <= idx < from + |s|) ==> DropIndexFrom(s, idx, from) == s
  {
    if s != [] {
      DropIndexFromMeaning(s[1..], idx, from + 1);
      if from < idx < from + |s| {
        assert s[..idx - from] == [s[0]] + s[1..][..idx - from - 1];
        assert s[idx - from + 1..] == s[1..][idx - from..];
      }
    }
  }

  /** Removing index `idx` deletes exactly that image and keeps the others in
      order; an index outside the list removes nothing. */
  lemma RemoveImageAtMeaning(s: seq<string>, idx: int)
    ensures 0 <= idx < |s| ==> RemoveImageAt(s, idx) == s[..idx] + s[idx + 1..]
    ensures 0 <= idx < |s| ==> |RemoveImageAt(s, idx)| == |s| - 1
    ensures !(0 <= idx < |s|) ==> RemoveImageAt(s, idx) == s
  {
    DropIndexFromMeaning(s, idx, 0);
  }

  /** Adding an image and then removing the last one gives back the list. */
  lemma AddThenRemove(s: seq<string>, img: string)
    ensures RemoveImageAt(s + [img], |s|) == s
  {
    RemoveImageAtMeaning(s + [img], |s|);
    assert (s + [img])[..|s|] == s;
  }

  /** handleLocationSelect: the point always moves; the address changes only
      when a non-empty one comes with it. */
  function SelectLocation(f: ListingForm, coords: Coordinates, address: Option<string>): ListingForm
  {
    f.(coordinates := coords,
       address := if address.Some? && address.value != "" then address.value else f.address)
  }

  lemma SelectLocationMeaning(f: ListingForm, coords: Coordinates, address: Option<string>)
    ensures SelectLocation(f, coords, address).coordinates == coords
    ensures address.Some? && address.value != "" ==> SelectLocation(f, coords, address).address == address.value
    ensures address.None? || address.value == "" ==> SelectLocation(f, coords, address) == f.(coordinates := coords)
  {
  }

  /** The step-one inputs. */
  datatype ListingEdit =
    | SetPropertyType(t: PropertyType)
    | SetRoomType(r: RoomType)
    | SetRent(n: int)
    | SetDescription(d: string)

  function ApplyEdit(f: ListingForm, e: ListingEdit): ListingForm
  {
    match e
    case SetPropertyType(t) => f.(propertyType := t)
    case SetRoomType(r) => f.(roomType := r)
    case SetRent(n) => f.(rent := n)
    case SetDescription(d) => f.(description := d)
  }

  /** The listing that would be published for an owner. */
  function ListingOf(f: ListingForm, ownerId: string): Api.NewListing
  {
    Api.NewListing(ownerId, f.propertyType, f.roomType, f.rent, f.address, f.description,
                   f.coordinates, SubmittedImages(f.images))
  }

  class Wizard {
    var step: nat
    var error: string
    var isPublished: bool
    var publishedId: string
    var form: ListingForm

    constructor ()
      ensures step == 1 && error == "" && !isPublished && publishedId == "" && form == InitialListing
    {
      step := 1;
      error := "";
      isPublished := false;
      publishedId := "";
      form := InitialListing;
    }

    method Edit(e: ListingEdit)
      modifies this`form
      ensures form == ApplyEdit(old(form), e)
    {
      form := ApplyEdit(form, e);
    }

    /** An image has been read: it goes to the end of the list. */
    method AddImage(img: string)
      modifies this`form
      ensures form == old(form).(images := old(form).images + [img])
    {
      form := form.(images := form.images + [img]);
    }

    method RemoveImage(idx: int)
      modifies this`form
      ensures form == old(form).(images := RemoveImageAt(old(form).images, idx))
    {
      form := form.(images := RemoveImageAt(form.images, idx));
    }

    method HandleLocationSelect(coords: Coordinates, address: Option<string>)
      modifies this`form
      ensures form == SelectLocation(old(form), coords, address)
    {
      form := SelectLocation(form, coords, address);
    }

    /** handleNext: step two only with a valid first step; otherwise the message. */
    method HandleNext()
      modifies this`error, this`step
      ensures ValidateStep1(form) == "" ==> step == 2 && error == ""
      ensures ValidateStep1(form) != "" ==> step == old(step) && error == ValidateStep1(form)
    {
      var err := ValidateStep1(form);
      if err != "" {
        error := err;
        return;
      }
      error := "";
      step := 2;
    }

    /** The Back button. */
    method Back()
      modifies this`step
      ensures step == 1
    {
      step := 1;
    }

    /** handleSubmit: without an address nothing is sent; otherwise the
        listing is sent with the owner's id and the submitted images, and the
        wizard shows the published id, or the generic error. */
    method HandleSubmit(store: Api.Store, owner: User, fault: bool)
      requires store.Valid()
      modifies this`error, this`isPublished, this`publishedId, store
      ensures store.Valid()
      ensures store.accounts == old(store.accounts) && store.users == old(store.users) && store.session == old(store.session)
      ensures store.wishlist == old(store.wishlist) && store.requests == old(store.requests)
      ensures form.address == "" ==>
        error == NoLocation && isPublished == old(isPublished) && publishedId == old(publishedId)
        && unchanged(store)
      ensures form.address != "" ==>
        ((isPublished && publishedId == MakeId(Api.PropertyPrefix, old(store.nextId))
            && error == ""
            && store.properties == old(store.properties)
                 + [Api.PropertyColumns(Property(publishedId, owner.id, form.propertyType, form.roomType,
                      form.rent, form.address, form.coordinates, SubmittedImages(form.images),
                      form.description, old(store.clock), false))])
        <==> store.configured && !fault)
      ensures form.address != "" && !(store.configured && !fault) ==>
        error == PublishFailed && isPublished == old(isPublished) && store.properties == old(store.properties)
    {
      if form.address == "" {
        error := NoLocation;
        return;
      }
      error := "";
      var r := store.AddProperty(ListingOf(form, owner.id), fault);
      if r.Success? {
        publishedId := r.value.id;
        isPublished := true;
      } else {
        error := PublishFailed;
      }
    }
  }
}
