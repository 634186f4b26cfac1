/** pages/PropertyDetails.tsx: one listing, its wishlist heart and its enquiry form. */
module PropertyDetails {
  import opened Types
  import Api
  import Constants
  import Navigation

  /** `props.find(item => item.id === id)`: the first listing with the id. */
  function FindById(ps: seq<Property>, id: string): (r: Option<Property>)
    ensures r.Some? ==> r.value in ps && r.value.id == id
    ensures r.Some? ==> exists i :: 0 <= i < |ps| && ps[i] == r.value && forall j :: 0 <= j < i ==> ps[j].id != id
    ensures r.None? <==> forall i :: 0 <= i < |ps| ==> ps[i].id != id
  {
    if ps == [] then None
    else if ps[0].id == id then Some(ps[0])
    else
      var r := FindById(ps[1..], id);
      assert forall i :: 0 < i < |ps| ==> ps[i] == ps[1..][i - 1];
      if r.Some? then
        assert exists i :: 0 <= i < |ps| && ps[i] == r.value && forall j :: 0 <= j < i ==> ps[j].id != id by {
          var k :| 0 <= k < |ps[1..]| && ps[1..][k] == r.value && forall j :: 0 <= j < k ==> ps[1..][j].id != id;
          assert ps[k + 1] == r.value;
          assert forall j :: 0 <= j < k + 1 ==> ps[j].id != id by {
            forall j | 0 <= j < k + 1 ensures ps[j].id != id {
              if j > 0 { assert ps[j] == ps[1..][j - 1]; }
            }
          }
        }
        r
      else r
  }

  /** `list.some(i => i.id === id)` */
  function HasId(list: seq<Property>, id: string): (b: bool)
    ensures b <==> exists i :: 0 <= i < |list| && list[i].id == id
  {
    if list == [] then false
    else if list[0].id == id then true
    else
      assert forall i :: 0 < i < |list| ==> list[i] == list[1..][i - 1];
      HasId(list[1..], id)
  }

  /** Lookup and membership agree: a listing is found exactly when some
      listing carries the id. */
  lemma FindAgreesWithHasId(ps: seq<Property>, id: string)
    ensures FindById(ps, id).Some? <==> HasId(ps, id)
  {
  }

  const AltImage: string := "https://picsum.photos/seed/alt/600/400"
  const Alt2Image: string := "https://picsum.photos/seed/alt2/600/400"
  const DefaultDescription: string :=
    "Spacious accommodation perfect for students or working professionals. Located in a safe neighborhood with easy access to public transport and essential services."

  /** `images[i] || fallback`: a missing or empty image shows the fallback. */
  function ImageOr(images: seq<string>, i: nat, fallback: string): (src: string)
    ensures i < |images| && images[i] != "" ==> src == images[i]
    ensures i >= |images| || images[i] == "" ==> src == fallback
  {
    if i < |images| && images[i] != "" then images[i] else fallback
  }

  /** The gallery's second and third images. */
  function Gallery(images: seq<string>): (string, string)
  {
    (ImageOr(images, 1, AltImage), ImageOr(images, 2, Alt2Image))
  }

  /** `description || default` */
  function DescriptionText(d: string): string
  {
    if d != "" then d else DefaultDescription
  }

  /** The gallery never shows an empty image: the listing's own second and
      third images when present, the fixed placeholders otherwise. */
  lemma GalleryFallbacks(p: Property)
    ensures Gallery(p.images).0 != "" && Gallery(p.images).1 != ""
    ensures |p.images| >= 3 && p.images[1] != "" && p.images[2] != "" ==> Gallery(p.images) == (p.images[1], p.images[2])
    ensures |p.images| <= 1 ==> Gallery(p.images) == (AltImage, Alt2Image)
  {
  }

  /** The description shown is never empty, and is the listing's own when given. */
  lemma DescriptionFallback(p: Property)
    ensures DescriptionText(p.description) != ""
    ensures p.description != "" ==> DescriptionText(p.description) == p.description
    ensures p.description == "" ==> DescriptionText(p.description) == DefaultDescription
  {
  }

  /** What `getProperties()` without filters answers. */
  function Listings(store: Api.Store, fault: bool): seq<Property>
    reads store
  {
    if store.configured && !fault then Api.QueryProperties(store.properties, None)
    else Constants.MockProperties(store.seedTime)
  }

  datatype DetailsView = Loading | NotFound | Shown(property: Property)

  class DetailsPage {
    const propertyId: string
    const user: Option<User>
    var property: Option<Property>
    var loading: bool
    var message: string
    var sent: bool
    var isWishlisted: bool

    constructor (propertyId: string, user: Option<User>)
      ensures this.propertyId == propertyId && this.user == user
      ensures property == None && loading && message == "" && !sent && !isWishlisted
    {
      this.propertyId := propertyId;
      this.user := user;
      property := None;
      loading := true;
      message := "";
      sent := false;
      isWishlisted := false;
    }

    function View(): DetailsView
      reads this
    {
      if loading then Loading
      else if property.None? then NotFound
      else Shown(property.value)
    }

    /** The load effect: find the listing among all listings, and read the
        wishlist only when signed in. */
    method Load(store: Api.Store, propertiesFault: bool, wishlistFault: bool)
      requires store.Valid()
      modifies this`property, this`loading, this`isWishlisted
      ensures !loading
      ensures property == FindById(Listings(store, propertiesFault), propertyId)
      ensures View() == NotFound <==> forall p :: p in Listings(store, propertiesFault) ==> p.id != propertyId
      ensures user.None? ==> isWishlisted == old(isWishlisted)
      ensures user.Some? && store.configured && store.session.Some? && !wishlistFault ==>
        (isWishlisted <==> exists p :: p in Api.WishlistOf(store.properties, store.wishlist, store.session.value) && p.id == propertyId)
      ensures user.Some? && !(store.configured && store.session.Some? && !wishlistFault) ==> !isWishlisted
    {
      var all := store.GetProperties(None, propertiesFault);
      property := FindById(all, propertyId);
      loading := false;
      if user.Some? {
        var list := store.GetWishlist(wishlistFault);
        isWishlisted := HasId(list, propertyId);
      }
    }

    /** The enquiry text area. */
    method SetMessage(m: string)
      modifies this`message
      ensures message == m
    {
      message := m;
    }

    /** handleToggleWishlist: signed out, go to sign in without calling the
        api; signed in, show whatever the toggle answers. */
    method HandleToggleWishlist(store: Api.Store, fault: bool) returns (navigateTo: Option<string>)
      requires store.Valid()
      modifies this`isWishlisted, store`wishlist, store`nextId
      ensures store.Valid()
      ensures user.None? ==>
        navigateTo == Some(Navigation.AuthPage) && isWishlisted == old(isWishlisted)
        && store.wishlist == old(store.wishlist)
      ensures user.Some? ==> navigateTo == None
      ensures user.Some? && store.configured && store.session.Some? && !fault ==>
        isWishlisted == (WishlistItem(store.session.value, propertyId) in Api.WishPairs(store.wishlist))
        && isWishlisted == (WishlistItem(store.session.value, propertyId) !in Api.WishPairs(old(store.wishlist)))
      ensures user.Some? && store.configured && store.session.Some? && fault ==>
        isWishlisted && store.wishlist == old(store.wishlist)
      ensures user.Some? && !(store.configured && store.session.Some?) ==> !isWishlisted
    {
      if user.None? {
        return Some(Navigation.AuthPage);
      }
      var b := store.ToggleWishlist(propertyId, fault);
      isWishlisted := b;
      navigateTo := None;
    }

    /** handleSendRequest: signed out, go to sign in; an empty message does
        nothing; otherwise send it to the listing's owner and mark it sent
        once the request is stored. */
    method HandleSendRequest(store: Api.Store, fault: bool) returns (navigateTo: Option<string>)
      requires store.Valid()
      requires property.Some?
      modifies this`sent, store
      ensures store.Valid()
      ensures store.accounts == old(store.accounts) && store.users == old(store.users) && store.session == old(store.session)
      ensures store.properties == old(store.properties) && store.wishlist == old(store.wishlist)
      ensures user.None? ==>
        navigateTo == Some(Navigation.AuthPage) && sent == old(sent) && unchanged(store)
      ensures user.Some? && message == "" ==>
        navigateTo == None && sent == old(sent) && unchanged(store)
      ensures user.Some? && message != "" ==>
        && navigateTo == None
        && (store.configured && store.session.Some? && !fault ==>
              sent && |store.requests| == |old(store.requests)| + 1
              && store.requests == old(store.requests) + [store.requests[|store.requests| - 1]]
              && var r := store.requests[|store.requests| - 1];
                 r.propertyId == propertyId && r.ownerId == property.value.ownerId
                 && r.seekerId == store.session.value && r.message == message && r.status == New)
        && (!(store.configured && store.session.Some? && !fault) ==>
              sent == old(sent) && store.requests == old(store.requests))
    {
      if user.None? {
        return Some(Navigation.AuthPage);
      }
      if message == "" {
        return None;
      }
      var r := store.SendRequest(propertyId, property.value.ownerId, message, fault);
      if r.Success? {
        sent := true;
      }
      navigateTo := None;
    }
  }
}
