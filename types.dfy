/** The application's entities, as declared in types.ts. Numbers that are
    amounts or ages are `int`; coordinates are `real`; timestamps are an opaque
    ordered `int`. */
module Types {

  datatype Option<+T> = None | Some(value: T) {
    /** `x || d` for a value that may be null */
    function GetOr(d: T): T
    {
      match this
      case Some(v) => v
      case None => d
    }
  }

  datatype Result<+R> = Success(value: R) | Failure(error: ApiError)

  /** The errors the data-access layer throws. */
  datatype ApiError =
    | NotConfigured      // "Supabase is not configured."
    | NotLoggedIn        // "Not logged in"
    | AuthError          // the auth provider refused the credentials or the sign-up
    | BackendError       // the query returned an error (or `.single()` found no row)

  /** `Tenant` is the property owner, `Seeker` looks for accommodation and
      `NoRole` ('NONE') has not chosen yet. */
  datatype UserRole = Tenant | Seeker | NoRole

  datatype PropertyType = Room | HostelPG | Apartment {
    /** The enum's string value, which filters compare against. */
    function Name(): string
    {
      match this
      case Room => "ROOM"
      case HostelPG => "HOSTEL_PG"
      case Apartment => "APARTMENT"
    }
  }

  datatype RoomType = Single | Double | Triple | Bhk1 | Bhk2 | FlatShare {
    function Label(): string
    {
      match this
      case Single => "Single Sharing"
      case Double => "Double Sharing"
      case Triple => "Triple Sharing"
      case Bhk1 => "1 BHK"
      case Bhk2 => "2 BHK"
      case FlatShare => "Flat Share"
    }
  }

  datatype Gender = Male | Female | Other | PreferNot

  datatype Coordinates = Coordinates(lat: real, lng: real)

  /** A user as the front end holds it. The profile columns of a freshly
      signed-up user are NULL in the store and are copied through as such, so
      they are optional here. */
  datatype User = User(
    id: string,
    email: string,
    fullName: Option<string>,
    phone: Option<string>,
    age: Option<int>,
    gender: Option<Gender>,
    role: UserRole,
    permanentAddress: Option<string>,
    currentAddress: Option<string>,
    profileComplete: bool)

  datatype Property = Property(
    id: string,
    ownerId: string,
    propertyType: PropertyType,
    roomType: RoomType,
    rent: int,
    address: string,
    coordinates: Coordinates,
    images: seq<string>,
    description: string,
    createdAt: int,
    verified: bool)

  datatype RequestStatus = New | Responded | Closed

  datatype AccommodationRequest = AccommodationRequest(
    id: string,
    propertyId: string,
    ownerId: string,
    seekerId: string,
    message: string,
    status: RequestStatus,
    createdAt: int)

  datatype WishlistItem = WishlistItem(userId: string, propertyId: string)
}
