/** services/api.ts: the data-access layer. The hosted backend (auth plus the
    `users`, `properties`, `wishlist` and `requests` tables) is modelled as the
    in-memory `Store`; the row mappers and every `api.*` operation are
    modelled on it. A `fault` argument stands for the backend answering the
    operation's query with an error. */
module Api {
  import opened Types
  import opened Seqs
  import opened RowIds
  import Constants
  import SupabaseConfig

  // ---------------------------------------------------------------------
  // Rows as the tables store them (snake_case columns)
  // ---------------------------------------------------------------------

  /** A `users` row; the profile columns are NULL until the profile is filled in. */
  datatype UserRow = UserRow(
    id: string,
    email: string,
    full_name: Option<string>,
    phone: Option<string>,
    age: Option<int>,
    gender: Option<Gender>,
    role: UserRole,
    permanent_address: Option<string>,
    current_address: Option<string>,
    profile_complete: bool)

  /** A `properties` row; `images` may be NULL. */
  datatype PropertyRow = PropertyRow(
    id: string,
    owner_id: string,
    property_type: PropertyType,
    room_type: RoomType,
    rent: int,
    address: string,
    latitude: real,
    longitude: real,
    images: Option<seq<string>>,
    description: string,
    created_at: int,
    verified: bool)

  datatype WishlistRow = WishlistRow(id: nat, user_id: string, property_id: string)

  /** An identity of the auth provider. */
  datatype Account = Account(userId: string, password: string)

  /** What a caller of addProperty supplies: a property without id, createdAt, verified. */
  datatype NewListing = NewListing(
    ownerId: string,
    propertyType: PropertyType,
    roomType: RoomType,
    rent: int,
    address: string,
    description: string,
    coordinates: Coordinates,
    images: seq<string>)

  const UserPrefix: string := "user-"
  const PropertyPrefix: string := "prop-"
  const RequestPrefix: string := "req-"

  /** `password || 'temporary_password_123'` */
  function EffectivePassword(password: Option<string>): string
  {
    if password.Some? && password.value != "" then password.value else "temporary_password_123"
  }

  // ---------------------------------------------------------------------
  // mapProperty / mapUser and the columns a write sends
  // ---------------------------------------------------------------------

  /** mapProperty: a field-for-field rename; NULL images become the empty list. */
  function MapProperty(p: PropertyRow): Property
  {
    Property(p.id, p.owner_id, p.property_type, p.room_type, p.rent, p.address,
             Coordinates(p.latitude, p.longitude), p.images.GetOr([]),
             p.description, p.created_at, p.verified)
  }

  /** The columns that hold a property. */
  function PropertyColumns(p: Property): PropertyRow
  {
    PropertyRow(p.id, p.ownerId, p.propertyType, p.roomType, p.rent, p.address,
                p.coordinates.lat, p.coordinates.lng, Some(p.images),
                p.description, p.createdAt, p.verified)
  }

  /** Mapping is a pure rename: no property is lost by storing and reading it,
      and a row reads back as itself except that NULL images read as []. */
  lemma MapPropertyRoundTrip(p: Property, r: PropertyRow)
    ensures MapProperty(PropertyColumns(p)) == p
    ensures PropertyColumns(MapProperty(r)) == r.(images := Some(r.images.GetOr([])))
    ensures r.images.None? ==> MapProperty(r).images == []
    ensures MapProperty(r).coordinates == Coordinates(r.latitude, r.longitude)
  {
  }

  /** mapUser: a field-for-field rename; NULL profile columns stay absent. */
  function MapUser(u: UserRow): User
  {
    User(u.id, u.email, u.full_name, u.phone, u.age, u.gender, u.role,
         u.permanent_address, u.current_address, u.profile_complete)
  }

  function UserColumns(u: User): UserRow
  {
    UserRow(u.id, u.email, u.fullName, u.phone, u.age, u.gender, u.role,
            u.permanentAddress, u.currentAddress, u.profileComplete)
  }

  lemma MapUserRoundTrip(u: User, r: UserRow)
    ensures MapUser(UserColumns(u)) == u
    ensures UserColumns(MapUser(r)) == r
  {
  }

  /** The profile row signUp inserts: role 'NONE', profile incomplete. */
  function NewProfileRow(id: string, email: string): UserRow
  {
    UserRow(id, email, None, None, None, None, NoRole, None, None, false)
  }

  // ---------------------------------------------------------------------
  // updateProfile's partial update
  // ---------------------------------------------------------------------

  /** `Partial<User>` as updateProfile reads it: `None` is `undefined`. */
  datatype UserPatch = UserPatch(
    fullName: Option<string>,
    phone: Option<string>,
    age: Option<int>,
    gender: Option<Gender>,
    role: Option<UserRole>,
    permanentAddress: Option<string>,
    currentAddress: Option<string>,
    profileComplete: Option<bool>)

  const EmptyPatch: UserPatch := UserPatch(None, None, None, None, None, None, None, None)

  function Pick<T>(given: Option<T>, current: Option<T>): Option<T>
  {
    if given.Some? then given else current
  }

  /** The row after `update(updates)`, where `updates` holds exactly the
      columns whose field is defined. */
  function ApplyPatch(row: UserRow, p: UserPatch): UserRow
  {
    row.(full_name := Pick(p.fullName, row.full_name),
         phone := Pick(p.phone, row.phone),
         age := Pick(p.age, row.age),
         gender := Pick(p.gender, row.gender),
         role := p.role.GetOr(row.role),
         permanent_address := Pick(p.permanentAddress, row.permanent_address),
         current_address := Pick(p.currentAddress, row.current_address),
         profile_complete := p.profileComplete.GetOr(row.profile_complete))
  }

  /** Every defined field is written, and a column changes only if its field is defined. */
  lemma ApplyPatchWritesExactly(row: UserRow, p: UserPatch)
    ensures var r := ApplyPatch(row, p);
      && r.id == row.id && r.email == row.email
      && (p.fullName.Some? ==> r.full_name == p.fullName)
      && (p.phone.Some? ==> r.phone == p.phone)
      && (p.age.Some? ==> r.age == p.age)
      && (p.gender.Some? ==> r.gender == p.gender)
      && (p.role.Some? ==> r.role == p.role.value)
      && (p.permanentAddress.Some? ==> r.permanent_address == p.permanentAddress)
      && (p.currentAddress.Some? ==> r.current_address == p.currentAddress)
      && (p.profileComplete.Some? ==> r.profile_complete == p.profileComplete.value)
      && (r.full_name != row.full_name ==> p.fullName.Some?)
      && (r.phone != row.phone ==> p.phone.Some?)
      && (r.age != row.age ==> p.age.Some?)
      && (r.gender != row.gender ==> p.gender.Some?)
      && (r.role != row.role ==> p.role.Some?)
      && (r.permanent_address != row.permanent_address ==> p.permanentAddress.Some?)
      && (r.current_address != row.current_address ==> p.currentAddress.Some?)
      && (r.profile_complete != row.profile_complete ==> p.profileComplete.Some?)
  {
  }

  /** An empty update changes nothing, and repeating an update changes nothing more. */
  lemma ApplyPatchIdempotent(row: UserRow, p: UserPatch)
    ensures ApplyPatch(row, EmptyPatch) == row
    ensures ApplyPatch(ApplyPatch(row, p), p) == ApplyPatch(row, p)
  {
  }

  // ---------------------------------------------------------------------
  // getProperties' query
  // ---------------------------------------------------------------------

  /** The `filters` argument. An empty type and a zero price are falsy and
      therefore mean "not given", like `undefined`. */
  datatype PropertyQuery = PropertyQuery(propertyType: string, minPrice: int, maxPrice: int)

  predicate Admits(q: Option<PropertyQuery>, r: PropertyRow)
  {
    match q
    case None => true
    case Some(f) =>
      && (f.propertyType == "" || r.property_type.Name() == f.propertyType)
      && (f.minPrice == 0 || r.rent >= f.minPrice)
      && (f.maxPrice == 0 || r.rent <= f.maxPrice)
  }

  function AdmitsFn(q: Option<PropertyQuery>): PropertyRow -> bool
  {
    (r: PropertyRow) => Admits(q, r)
  }

  function RowTime(r: PropertyRow): int { r.created_at }

  function CreatedAt(p: Property): int { p.createdAt }

  function MapProperties(rows: seq<PropertyRow>): seq<Property>
  {
    seq(|rows|, i requires 0 <= i < |rows| => MapProperty(rows[i]))
  }

  /** The rows the query selects, newest first, mapped. */
  function QueryProperties(rows: seq<PropertyRow>, q: Option<PropertyQuery>): seq<Property>
  {
    MapProperties(Reverse(Filter(rows, AdmitsFn(q))))
  }

  lemma MapPropertiesMembership(rows: seq<PropertyRow>, p: Property)
    ensures p in MapProperties(rows) <==> exists r :: r in rows && MapProperty(r) == p
  {
    var ps := MapProperties(rows);
    if p in ps {
      var i :| 0 <= i < |ps| && ps[i] == p;
      assert rows[i] in rows;
    }
    if exists r :: r in rows && MapProperty(r) == p {
      var r :| r in rows && MapProperty(r) == p;
      var i :| 0 <= i < |rows| && rows[i] == r;
      assert ps[i] == p;
    }
  }

  /** A listing is returned exactly when its row passes every given filter. */
  lemma QueryMembership(rows: seq<PropertyRow>, q: Option<PropertyQuery>, p: Property)
    ensures p in QueryProperties(rows, q) <==> exists r :: r in rows && Admits(q, r) && MapProperty(r) == p
  {
    var kept := Filter(rows, AdmitsFn(q));
    MapPropertiesMembership(Reverse(kept), p);
    forall r ensures r in Reverse(kept) <==> r in rows && Admits(q, r) {
      ReverseMembership(kept, r);
      FilterMembership(rows, AdmitsFn(q), r);
    }
  }

  /** Over a table in insertion order, the query answers newest first. */
  lemma QueryNewestFirst(rows: seq<PropertyRow>, q: Option<PropertyQuery>)
    requires Increasing(rows, RowTime)
    ensures Decreasing(QueryProperties(rows, q), CreatedAt)
  {
    FilterIncreasing(rows, AdmitsFn(q), RowTime);
    ReverseDecreasing(Filter(rows, AdmitsFn(q)), RowTime);
  }

  /** Price bounds are inclusive: a rent equal to a given bound is kept. */
  lemma PriceBoundsInclusive(r: PropertyRow, t: string)
    requires r.rent != 0
    requires t == "" || r.property_type.Name() == t
    ensures Admits(Some(PropertyQuery(t, r.rent, r.rent)), r)
  {
  }

  /** Filters with nothing truthy in them select the same as no filters. */
  lemma {:induction false} EmptyQuerySelectsAll(rows: seq<PropertyRow>)
    ensures QueryProperties(rows, Some(PropertyQuery("", 0, 0))) == QueryProperties(rows, None)
    ensures QueryProperties(rows, None) == MapProperties(Reverse(rows))
  {
    FilterKeepsAll(rows, AdmitsFn(Some(PropertyQuery("", 0, 0))));
    FilterKeepsAll(rows, AdmitsFn(None));
  }

  /** Over the two seed listings stored as rows, a ROOM query for 5000-9000
      selects exactly `p1`. */
  lemma SeedRoomQuery(t: int)
    ensures var seed := Constants.MockProperties(t);
      QueryProperties([PropertyColumns(seed[0]), PropertyColumns(seed[1])],
                      Some(PropertyQuery("ROOM", 5000, 9000))) == [seed[0]]
  {
    var seed := Constants.MockProperties(t);
    var rows := [PropertyColumns(seed[0]), PropertyColumns(seed[1])];
    var f := AdmitsFn(Some(PropertyQuery("ROOM", 5000, 9000)));
    assert f(rows[0]) && !f(rows[1]);
    assert rows[1..][1..] == [];
    assert Filter(rows, f) == [rows[0]];
    assert Reverse([rows[0]]) == [rows[0]];
    MapPropertyRoundTrip(seed[0], rows[0]);
  }

  // ---------------------------------------------------------------------
  // The wishlist table
  // ---------------------------------------------------------------------

  function Pair(w: WishlistRow): WishlistItem
  {
    WishlistItem(w.user_id, w.property_id)
  }

  /** The (user, property) pairs the table holds. */
  ghost function WishPairs(rows: seq<WishlistRow>): set<WishlistItem>
  {
    set w | w in rows :: Pair(w)
  }

  /** Row ids are unique and below the next id to issue; at most one row per pair. */
  ghost predicate WishValid(rows: seq<WishlistRow>, nextId: nat)
  {
    && (forall i :: 0 <= i < |rows| ==> rows[i].id < nextId)
    && (forall i, j :: 0 <= i < j < |rows| ==> rows[i].id != rows[j].id && Pair(rows[i]) != Pair(rows[j]))
  }

  /** The `maybeSingle()` lookup of the user's row for a property. */
  function FindWish(rows: seq<WishlistRow>, uid: string, pid: string): (r: Option<WishlistRow>)
    ensures r.Some? ==> r.value in rows && Pair(r.value) == WishlistItem(uid, pid)
    ensures r.None? ==> WishlistItem(uid, pid) !in WishPairs(rows)
  {
    if rows == [] then None
    else if Pair(rows[0]) == WishlistItem(uid, pid) then Some(rows[0])
    else
      var rest := FindWish(rows[1..], uid, pid);
      assert rest.None? ==> WishlistItem(uid, pid) !in WishPairs(rows) by {
        if rest.None? {
          forall w | w in rows ensures Pair(w) != WishlistItem(uid, pid) {
            if w != rows[0] { assert w in rows[1..]; }
          }
        }
      }
      rest
  }

  function IdIsNot(id: nat): WishlistRow -> bool
  {
    (w: WishlistRow) => w.id != id
  }

  /** One toggle of the table: delete the user's row for the property if there
      is one, otherwise insert one with id `freshId`. */
  function ToggleRows(rows: seq<WishlistRow>, uid: string, pid: string, freshId: nat): seq<WishlistRow>
  {
    match FindWish(rows, uid, pid)
    case Some(w) => Filter(rows, IdIsNot(w.id))
    case None => rows + [WishlistRow(freshId, uid, pid)]
  }

  lemma WishDistinct(rows: seq<WishlistRow>, nextId: nat, a: WishlistRow, b: WishlistRow)
    requires WishValid(rows, nextId) && a in rows && b in rows && a != b
    ensures a.id != b.id && Pair(a) != Pair(b)
  {
    var i :| 0 <= i < |rows| && rows[i] == a;
    var j :| 0 <= j < |rows| && rows[j] == b;
    assert i != j;
    if i > j {
      assert rows[j].id != rows[i].id && Pair(rows[j]) != Pair(rows[i]);
    }
  }

  /** Deleting a row by id removes exactly that row's pair. */
  lemma DeleteRemovesPair(rows: seq<WishlistRow>, nextId: nat, w: WishlistRow)
    requires WishValid(rows, nextId) && w in rows
    ensures WishPairs(Filter(rows, IdIsNot(w.id))) == WishPairs(rows) - {Pair(w)}
    ensures WishValid(Filter(rows, IdIsNot(w.id)), nextId)
  {
    var kept := Filter(rows, IdIsNot(w.id));
    forall x | x in kept ensures x in rows && x.id != w.id {
      FilterMembership(rows, IdIsNot(w.id), x);
    }
    forall x | x in rows && x.id != w.id ensures x in kept {
      FilterMembership(rows, IdIsNot(w.id), x);
    }
    forall x | x in rows && x != w ensures x.id != w.id && Pair(x) != Pair(w) {
      WishDistinct(rows, nextId, x, w);
    }
    assert WishPairs(kept) == WishPairs(rows) - {Pair(w)} by {
      forall item | item in WishPairs(rows) - {Pair(w)} ensures item in WishPairs(kept) {
        var x :| x in rows && Pair(x) == item;
        assert x in kept;
      }
    }
    FilterIsSubsequence(rows, IdIsNot(w.id));
    SubsequenceKeepsWishValid(kept, rows, nextId);
  }

  lemma {:induction false} SubsequenceKeepsWishValid(a: seq<WishlistRow>, b: seq<WishlistRow>, nextId: nat)
    requires IsSubsequence(a, b) && WishValid(b, nextId)
    ensures WishValid(a, nextId)
    decreases |b|
  {
    if a != [] {
      assert b != [];
      assert WishValid(b[1..], nextId);
      if a[0] == b[0] {
        SubsequenceKeepsWishValid(a[1..], b[1..], nextId);
        SubsequenceMembers(a[1..], b[1..]);
        forall j | 0 < j < |a| ensures a[0].id != a[j].id && Pair(a[0]) != Pair(a[j]) {
          assert a[j] == a[1..][j - 1] && a[j] in a[1..];
          var k :| 0 <= k < |b[1..]| && b[1..][k] == a[j];
          assert b[k + 1] == a[j];
        }
      } else {
        SubsequenceKeepsWishValid(a, b[1..], nextId);
      }
    }
  }

  lemma {:induction false} SubsequenceMembers<T>(a: seq<T>, b: seq<T>)
    requires IsSubsequence(a, b)
    ensures forall x :: x in a ==> x in b
    decreases |b|
  {
    if a != [] {
      if a[0] == b[0] {
        SubsequenceMembers(a[1..], b[1..]);
        forall x | x in a ensures x in b {
          if x != a[0] { assert x in a[1..]; }
        }
      } else {
        SubsequenceMembers(a, b[1..]);
      }
    }
  }

  /** A toggle flips the one pair it is about and keeps every other pair. */
  lemma ToggleFlips(rows: seq<WishlistRow>, uid: string, pid: string, nextId: nat)
    requires WishValid(rows, nextId)
    ensures var item := WishlistItem(uid, pid);
      WishPairs(ToggleRows(rows, uid, pid, nextId))
        == if item in WishPairs(rows) then WishPairs(rows) - {item} else WishPairs(rows) + {item}
    ensures WishValid(ToggleRows(rows, uid, pid, nextId), nextId + 1)
  {
    var item := WishlistItem(uid, pid);
    match FindWish(rows, uid, pid)
    case Some(w) =>
      DeleteRemovesPair(rows, nextId, w);
      DeleteRemovesPair(rows, nextId + 1, w);
    case None =>
      var n := WishlistRow(nextId, uid, pid);
      var after := rows + [n];
      assert WishPairs(after) == WishPairs(rows) + {item} by {
        forall x | x in after ensures x in rows || x == n { }
        assert n in after;
        forall x | x in rows ensures x in after { }
      }
      forall i | 0 <= i < |rows| ensures Pair(rows[i]) != item {
        assert rows[i] in rows;
      }
  }

  /** Two toggles of the same pair give back the pairs the table started with. */
  lemma ToggleTwice(rows: seq<WishlistRow>, uid: string, pid: string, nextId: nat)
    requires WishValid(rows, nextId)
    ensures WishPairs(ToggleRows(ToggleRows(rows, uid, pid, nextId), uid, pid, nextId + 1)) == WishPairs(rows)
  {
    ToggleFlips(rows, uid, pid, nextId);
    ToggleFlips(ToggleRows(rows, uid, pid, nextId), uid, pid, nextId + 1);
  }

  /** The property ids a user has wishlisted. */
  function WishedIds(rows: seq<WishlistRow>, uid: string): set<string>
  {
    set w | w in rows && w.user_id == uid :: w.property_id
  }

  function IdIn(ids: set<string>): PropertyRow -> bool
  {
    (r: PropertyRow) => r.id in ids
  }

  /** getWishlist's second query: the properties whose id is among the user's rows. */
  function WishlistOf(props: seq<PropertyRow>, rows: seq<WishlistRow>, uid: string): seq<Property>
  {
    MapProperties(Filter(props, IdIn(WishedIds(rows, uid))))
  }

  /** A property is on the user's wishlist exactly when the table pairs the two. */
  lemma WishlistOfMembership(props: seq<PropertyRow>, rows: seq<WishlistRow>, uid: string, p: Property)
    ensures p in WishlistOf(props, rows, uid) <==>
            exists r :: r in props && MapProperty(r) == p && WishlistItem(uid, r.id) in WishPairs(rows)
  {
    var ids := WishedIds(rows, uid);
    var kept := Filter(props, IdIn(ids));
    MapPropertiesMembership(kept, p);
    forall r ensures r in kept <==> r in props && WishlistItem(uid, r.id) in WishPairs(rows) {
      FilterMembership(props, IdIn(ids), r);
      if WishlistItem(uid, r.id) in WishPairs(rows) {
        var w :| w in rows && Pair(w) == WishlistItem(uid, r.id);
        assert r.id in ids;
      }
    }
  }

  /** The early `length === 0` return agrees with the query it skips. */
  lemma NoRowsNoWishlist(props: seq<PropertyRow>, rows: seq<WishlistRow>, uid: string)
    requires WishedIds(rows, uid) == {}
    ensures WishlistOf(props, rows, uid) == []
  {
    FilterKeepsNone(props, IdIn(WishedIds(rows, uid)));
  }

  // ---------------------------------------------------------------------
  // The requests table
  // ---------------------------------------------------------------------

  function RequestTime(r: AccommodationRequest): int { r.createdAt }

  function InvolvesFn(uid: string): AccommodationRequest -> bool
  {
    (r: AccommodationRequest) => r.ownerId == uid || r.seekerId == uid
  }

  /** getRequests' query: the user is owner or seeker, newest first. */
  function RequestsOf(reqs: seq<AccommodationRequest>, uid: string): seq<AccommodationRequest>
  {
    Reverse(Filter(reqs, InvolvesFn(uid)))
  }

  lemma RequestsOfMembership(reqs: seq<AccommodationRequest>, uid: string, r: AccommodationRequest)
    ensures r in RequestsOf(reqs, uid) <==> r in reqs && (r.ownerId == uid || r.seekerId == uid)
  {
    ReverseMembership(Filter(reqs, InvolvesFn(uid)), r);
    FilterMembership(reqs, InvolvesFn(uid), r);
  }

  lemma RequestsOfNewestFirst(reqs: seq<AccommodationRequest>, uid: string)
    requires Increasing(reqs, RequestTime)
    ensures Decreasing(RequestsOf(reqs, uid), RequestTime)
  {
    FilterIncreasing(reqs, InvolvesFn(uid), RequestTime);
    ReverseDecreasing(Filter(reqs, InvolvesFn(uid)), RequestTime);
  }

  /** A user who is neither owner nor seeker of any request sees none. */
  lemma UninvolvedSeesNone(reqs: seq<AccommodationRequest>, uid: string)
    requires forall i :: 0 <= i < |reqs| ==> reqs[i].ownerId != uid && reqs[i].seekerId != uid
    ensures RequestsOf(reqs, uid) == []
  {
    FilterKeepsNone(reqs, InvolvesFn(uid));
  }

  // ---------------------------------------------------------------------
  // The backend
  // ---------------------------------------------------------------------

  class Store {
    /** isSupabaseConfigured */
    const configured: bool
    /** When the seed listings were created (module load). */
    const seedTime: int
    /** Auth identities by email. */
    var accounts: map<string, Account>
    var users: map<string, UserRow>
    var properties: seq<PropertyRow>
    var wishlist: seq<WishlistRow>
    var requests: seq<AccommodationRequest>
    /** The signed-in auth user's id. */
    var session: Option<string>
    /** The next identifier to issue, and the server clock. */
    var nextId: nat
    var clock: int

    ghost predicate Valid()
      reads this
    {
      && (!configured ==> session.None?)
      && (session.Some? ==> session.value in users)
      && (forall e :: e in accounts ==> accounts[e].userId in users)
      && (forall k :: k in users ==> users[k].id == k && IdNumber(UserPrefix, k) < nextId)
      && Increasing(properties, RowTime)
      && (forall i :: 0 <= i < |properties| ==> properties[i].created_at < clock)
      && (forall i :: 0 <= i < |properties| ==> IdNumber(PropertyPrefix, properties[i].id) < nextId)
      && Increasing(requests, RequestTime)
      && (forall i :: 0 <= i < |requests| ==> requests[i].createdAt < clock)
      && (forall i :: 0 <= i < |requests| ==> IdNumber(RequestPrefix, requests[i].id) < nextId)
      && WishValid(wishlist, nextId)
    }

    /** The backend as the application finds it at start-up: configured as the
        environment says, with empty tables and nobody signed in. */
    constructor (env: SupabaseConfig.EnvSources, seedTime: int)
      ensures Valid()
      ensures configured == SupabaseConfig.Configured(env) && this.seedTime == seedTime
      ensures accounts == map[] && users == map[] && properties == [] && wishlist == [] && requests == []
      ensures session == None
    {
      configured := SupabaseConfig.Configured(env);
      this.seedTime := seedTime;
      accounts, users := map[], map[];
      properties, wishlist, requests := [], [], [];
      session := None;
      nextId, clock := 0, 0;
    }

    /** The signed-in user's profile, if both exist. */
    function CurrentUser(): Option<User>
      reads this
    {
      if session.Some? && session.value in users then Some(MapUser(users[session.value])) else None
    }

    /** getCurrentUser: null when not configured, signed out, or when the
        profile lookup fails or finds no row. */
    method GetCurrentUser(fault: bool) returns (u: Option<User>)
      requires Valid()
      ensures u.Some? <==> configured && !fault && session.Some?
      ensures u.Some? ==> u.value.id == session.value && UserColumns(u.value) == users[session.value]
    {
      if !configured {
        return None;
      }
      if session.None? {
        return None;
      }
      var uid := session.value;
      if fault || uid !in users {
        return None;
      }
      return Some(MapUser(users[uid]));
    }

    /** The state change of a successful sign-up from the given earlier state. */
    ghost predicate Registered(email: string, password: string,
                               accounts0: map<string, Account>, users0: map<string, UserRow>, next0: nat)
      reads this
    {
      var id := MakeId(UserPrefix, next0);
      && accounts == accounts0[email := Account(id, password)]
      && users == users0[id := NewProfileRow(id, email)]
      && id !in users0
      && session == Some(id)
      && nextId == next0 + 1
    }

    /** signUp: refuses when not configured or when the email is taken;
        otherwise creates the identity, signs it in, inserts its profile row
        (role 'NONE', incomplete) and returns getCurrentUser(), which is null
        when that closing read fails (`readFault`). */
    method SignUp(email: string, password: Option<string>, readFault: bool) returns (r: Result<Option<User>>)
      requires Valid()
      modifies this
      ensures Valid()
      ensures properties == old(properties) && wishlist == old(wishlist) && requests == old(requests) && clock == old(clock)
      ensures !configured ==> r == Failure(NotConfigured) && unchanged(this)
      ensures configured && email in old(accounts) ==> r == Failure(AuthError) && unchanged(this)
      ensures configured && email !in old(accounts) ==>
        && Registered(email, EffectivePassword(password), old(accounts), old(users), old(nextId))
        && r.Success? && (r.value.Some? <==> !readFault)
        && (r.value.Some? ==>
              && r.value.value == MapUser(NewProfileRow(MakeId(UserPrefix, old(nextId)), email))
              && r.value.value.role == NoRole && !r.value.value.profileComplete)
    {
      if !configured {
        return Failure(NotConfigured);
      }
      if email in accounts {
        return Failure(AuthError);
      }
      var id := MakeId(UserPrefix, nextId);
      IdNumberOfMakeId(UserPrefix, nextId);
      accounts := accounts[email := Account(id, EffectivePassword(password))];
      nextId := nextId + 1;
      session := Some(id);
      users := users[id := NewProfileRow(id, email)];
      // the closing getCurrentUser(): the new session's row, unless the read fails
      r := Success(if readFault then None else CurrentUser());
    }

    predicate CanSignIn(email: string, password: string)
      reads this
    {
      email in accounts && accounts[email].password == password
    }

    /** login: null when not configured; a sign-in that fails for any reason
        falls back to signUp with the same credentials; a successful one
        returns getCurrentUser(), null when that read fails (`readFault`). */
    method Login(email: string, password: Option<string>, readFault: bool) returns (r: Result<Option<User>>)
      requires Valid()
      modifies this
      ensures Valid()
      ensures properties == old(properties) && wishlist == old(wishlist) && requests == old(requests) && clock == old(clock)
      ensures !configured ==> r == Success(None) && unchanged(this)
      ensures configured && old(CanSignIn(email, EffectivePassword(password))) ==>
        && session == Some(old(accounts)[email].userId)
        && accounts == old(accounts) && users == old(users) && nextId == old(nextId)
        && r.Success? && (r.value.Some? <==> !readFault)
        && (r.value.Some? ==> r.value == CurrentUser())
      ensures configured && !old(CanSignIn(email, EffectivePassword(password))) && email in old(accounts) ==>
        r == Failure(AuthError) && unchanged(this)
      ensures configured && email !in old(accounts) ==>
        && Registered(email, EffectivePassword(password), old(accounts), old(users), old(nextId))
        && r.Success? && (r.value.Some? <==> !readFault)
        && (r.value.Some? ==> r.value.value.role == NoRole && !r.value.value.profileComplete)
    {
      if !configured {
        return Success(None);
      }
      if CanSignIn(email, EffectivePassword(password)) {
        session := Some(accounts[email].userId);
        var u := GetCurrentUser(readFault);
        if u.Some? {
          MapUserRoundTrip(u.value, users[session.value]);
        }
        return Success(u);
      }
      r := SignUp(email, password, readFault);
    }

    /** updateProfile: fails when not configured, when signed out, or when the
        update finds no profile row; otherwise writes the patch to the current
        user's row only and returns the updated user. */
    method UpdateProfile(patch: UserPatch, fault: bool) returns (r: Result<User>)
      requires Valid()
      modifies this`users
      ensures Valid()
      ensures r == Failure(NotConfigured) <==> !configured
      ensures r == Failure(NotLoggedIn) <==> configured && session.None?
      ensures r.Success? <==> configured && session.Some? && !fault && session.value in old(users)
      ensures r.Success? ==>
        && users == old(users)[session.value := ApplyPatch(old(users)[session.value], patch)]
        && r.value == MapUser(users[session.value])
      ensures r.Failure? ==> users == old(users)
    {
      if !configured {
        return Failure(NotConfigured);
      }
      if session.None? {
        return Failure(NotLoggedIn);
      }
      var uid := session.value;
      if fault || uid !in users {
        return Failure(BackendError);
      }
      users := users[uid := ApplyPatch(users[uid], patch)];
      r := Success(MapUser(users[uid]));
    }

    /** logout: signs out when configured; otherwise nobody is signed in anyway. */
    method Logout()
      requires Valid()
      modifies this`session
      ensures Valid() && session == None
    {
      if configured {
        session := None;
      }
    }

    /** getProperties: the seed list when not configured or when the query
        fails, otherwise the admitted rows newest first. */
    method GetProperties(q: Option<PropertyQuery>, fault: bool) returns (ps: seq<Property>)
      requires Valid()
      ensures !configured || fault ==> ps == Constants.MockProperties(seedTime)
      ensures configured && !fault ==> ps == QueryProperties(properties, q)
      ensures configured && !fault ==> Decreasing(ps, CreatedAt)
    {
      if !configured {
        return Constants.MockProperties(seedTime);
      }
      if fault {
        return Constants.MockProperties(seedTime);
      }
      ps := QueryProperties(properties, q);
      QueryNewestFirst(properties, q);
    }

    /** addProperty: stores the listing unverified, with a fresh id and the
        server's time, and returns the stored row mapped. */
    method AddProperty(data: NewListing, fault: bool) returns (r: Result<Property>)
      requires Valid()
      modifies this
      ensures Valid()
      ensures accounts == old(accounts) && users == old(users) && session == old(session)
      ensures wishlist == old(wishlist) && requests == old(requests)
      ensures !configured ==> r == Failure(NotConfigured)
      ensures configured && fault ==> r == Failure(BackendError)
      ensures r.Failure? ==> properties == old(properties)
      ensures r.Success? <==> configured && !fault
      ensures r.Success? ==>
        && properties == old(properties) + [PropertyColumns(r.value)]
        && !r.value.verified
        && r.value.id == MakeId(PropertyPrefix, old(nextId))
        && (forall i :: 0 <= i < |old(properties)| ==> old(properties)[i].id != r.value.id)
        && r.value.createdAt == old(clock)
        && NewListing(r.value.ownerId, r.value.propertyType, r.value.roomType, r.value.rent,
                      r.value.address, r.value.description, r.value.coordinates, r.value.images) == data
    {
      if !configured {
        return Failure(NotConfigured);
      }
      if fault {
        return Failure(BackendError);
      }
      var row := PropertyRow(MakeId(PropertyPrefix, nextId), data.ownerId, data.propertyType,
                             data.roomType, data.rent, data.address,
                             data.coordinates.lat, data.coordinates.lng, Some(data.images),
                             data.description, clock, false);
      IdNumberOfMakeId(PropertyPrefix, nextId);
      IncreasingAppend(properties, row, RowTime);
      properties := properties + [row];
      nextId := nextId + 1;
      clock := clock + 1;
      r := Success(MapProperty(row));
    }

    /** toggleWishlist: false and no change when not configured or signed out;
        otherwise deletes the user's row for the property and answers false,
        or inserts one and answers true. Errors are not checked: when the
        backend fails, the lookup yields no row, the insert is refused and the
        answer is true whatever the table holds. */
    method ToggleWishlist(propertyId: string, fault: bool) returns (b: bool)
      requires Valid()
      modifies this`wishlist, this`nextId
      ensures Valid()
      ensures !configured || session.None? ==> !b && wishlist == old(wishlist)
      ensures configured && session.Some? && !fault ==>
        && b == (WishlistItem(session.value, propertyId) !in WishPairs(old(wishlist)))
        && wishlist == ToggleRows(old(wishlist), session.value, propertyId, old(nextId))
        && (b <==> WishlistItem(session.value, propertyId) in WishPairs(wishlist))
      ensures configured && session.Some? && fault ==> b && wishlist == old(wishlist)
    {
      if !configured {
        return false;
      }
      if session.None? {
        return false;
      }
      var uid := session.value;
      if fault {
        return true;
      }
      var existing := FindWish(wishlist, uid, propertyId);
      ToggleFlips(wishlist, uid, propertyId, nextId);
      if existing.Some? {
        DeleteRemovesPair(wishlist, nextId, existing.value);
        wishlist := Filter(wishlist, IdIsNot(existing.value.id));
        b := false;
      } else {
        wishlist := wishlist + [WishlistRow(nextId, uid, propertyId)];
        nextId := nextId + 1;
        b := true;
      }
    }

    /** getWishlist: [] when not configured, signed out, on a failed query or
        when the user has no rows; otherwise the wishlisted properties. */
    method GetWishlist(fault: bool) returns (ps: seq<Property>)
      requires Valid()
      ensures !configured || session.None? || fault ==> ps == []
      ensures configured && session.Some? && !fault ==> ps == WishlistOf(properties, wishlist, session.value)
    {
      if !configured {
        return [];
      }
      if session.None? {
        return [];
      }
      var uid := session.value;
      if fault {
        return [];
      }
      var ids := WishedIds(wishlist, uid);
      if ids == {} {
        NoRowsNoWishlist(properties, wishlist, uid);
        return [];
      }
      ps := MapProperties(Filter(properties, IdIn(ids)));
    }

    /** sendRequest: fails when not configured or signed out; otherwise stores
        a 'new' request from the current user and returns it. */
    method SendRequest(propertyId: string, ownerId: string, message: string, fault: bool)
      returns (r: Result<AccommodationRequest>)
      requires Valid()
      modifies this
      ensures Valid()
      ensures accounts == old(accounts) && users == old(users) && session == old(session)
      ensures properties == old(properties) && wishlist == old(wishlist)
      ensures !configured ==> r == Failure(NotConfigured)
      ensures configured && session.None? ==> r == Failure(NotLoggedIn)
      ensures r.Success? <==> configured && session.Some? && !fault
      ensures r.Failure? ==> requests == old(requests)
      ensures r.Success? ==>
        && requests == old(requests) + [r.value]
        && r.value == AccommodationRequest(MakeId(RequestPrefix, old(nextId)), propertyId, ownerId,
                                           session.value, message, New, old(clock))
        && (forall i :: 0 <= i < |old(requests)| ==> old(requests)[i].id != r.value.id)
    {
      if !configured {
        return Failure(NotConfigured);
      }
      if session.None? {
        return Failure(NotLoggedIn);
      }
      if fault {
        return Failure(BackendError);
      }
      var req := AccommodationRequest(MakeId(RequestPrefix, nextId), propertyId, ownerId,
                                      session.value, message, New, clock);
      IdNumberOfMakeId(RequestPrefix, nextId);
      IncreasingAppend(requests, req, RequestTime);
      requests := requests + [req];
      nextId := nextId + 1;
      clock := clock + 1;
      r := Success(req);
    }

    /** getRequests: [] when not configured, signed out or on a failed query;
        otherwise the requests the user owns or sent, newest first. */
    method GetRequests(fault: bool) returns (rs: seq<AccommodationRequest>)
      requires Valid()
      ensures !configured || session.None? || fault ==> rs == []
      ensures configured && session.Some? && !fault ==> rs == RequestsOf(requests, session.value)
      ensures configured && session.Some? && !fault ==> Decreasing(rs, RequestTime)
    {
      if !configured {
        return [];
      }
      if session.None? {
        return [];
      }
      if fault {
        return [];
      }
      rs := RequestsOf(requests, session.value);
      RequestsOfNewestFirst(requests, session.value);
    }
  }
}
