/** pages/Dashboard.tsx: the owner's and the seeker's dashboards, as values
    derived from the lists the page loads. */
module Dashboard {
  import opened Types
  import opened Seqs

  function OwnedBy(uid: string): Property -> bool
  {
    (p: Property) => p.ownerId == uid
  }

  function IsNewRequest(): AccommodationRequest -> bool
  {
    (r: AccommodationRequest) => r.status == New
  }

  function IsVerified(): Property -> bool
  {
    (p: Property) => p.verified
  }

  /** `all.filter(p => p.ownerId === user.id)` */
  function OwnerProperties(all: seq<Property>, uid: string): seq<Property>
  {
    Filter(all, OwnedBy(uid))
  }

  /** "New Requests": requests whose status is 'new'. */
  function NewRequestCount(reqs: seq<AccommodationRequest>): nat
  {
    |Filter(reqs, IsNewRequest())|
  }

  /** "Verified": listings marked verified. */
  function VerifiedCount(ps: seq<Property>): nat
  {
    |Filter(ps, IsVerified())|
  }

  /** `requests.slice(0, 5)` */
  function RecentActivity(reqs: seq<AccommodationRequest>): seq<AccommodationRequest>
  {
    Take(reqs, 5)
  }

  datatype DashboardView =
    | OwnerDashboard(properties: seq<Property>, totalListings: nat, newRequests: nat,
                     verified: nat, recent: seq<AccommodationRequest>)
    | SeekerDashboard(saved: nat, sent: nat)

  /** The dashboard for a user, given what `getProperties`, `getRequests` and
      `getWishlist` returned: the owner view for TENANT, the seeker view for
      every other role. */
  function DashboardOf(u: User, all: seq<Property>, reqs: seq<AccommodationRequest>,
                       wishlist: seq<Property>): DashboardView
  {
    if u.role == Tenant then
      var mine := OwnerProperties(all, u.id);
      OwnerDashboard(mine, |mine|, NewRequestCount(reqs), VerifiedCount(mine), RecentActivity(reqs))
    else SeekerDashboard(|wishlist|, |reqs|)
  }

  /** The owner's list holds exactly the user's own listings, in the order loaded. */
  lemma OwnerPropertiesMeaning(all: seq<Property>, uid: string, p: Property)
    ensures p in OwnerProperties(all, uid) <==> p in all && p.ownerId == uid
    ensures IsSubsequence(OwnerProperties(all, uid), all)
  {
    FilterMembership(all, OwnedBy(uid), p);
    FilterIsSubsequence(all, OwnedBy(uid));
  }

  /** A count is at most the list's length; it is the whole length exactly
      when every element qualifies, and zero exactly when none does. */
  lemma CountMeaning<T>(s: seq<T>, q: T -> bool)
    ensures |Filter(s, q)| <= |s|
    ensures |Filter(s, q)| == |s| <==> forall i :: 0 <= i < |s| ==> q(s[i])
    ensures |Filter(s, q)| == 0 <==> forall i :: 0 <= i < |s| ==> !q(s[i])
  {
    FilterKeepsLength(s, q);
    if exists i :: 0 <= i < |s| && q(s[i]) {
      var i :| 0 <= i < |s| && q(s[i]);
      FilterMembership(s, q, s[i]);
    } else {
      FilterKeepsNone(s, q);
    }
  }

  lemma NewRequestCountMeaning(reqs: seq<AccommodationRequest>)
    ensures NewRequestCount(reqs) <= |reqs|
    ensures NewRequestCount(reqs) == |reqs| <==> forall i :: 0 <= i < |reqs| ==> reqs[i].status == New
    ensures NewRequestCount(reqs) == 0 <==> forall i :: 0 <= i < |reqs| ==> reqs[i].status != New
  {
    CountMeaning(reqs, IsNewRequest());
  }

  /** "New Requests" counts every copy of each request with status 'new' and nothing else. */
  lemma NewRequestsCounted(reqs: seq<AccommodationRequest>, r: AccommodationRequest)
    ensures NewRequestCount(reqs) == |multiset(Filter(reqs, IsNewRequest()))|
    ensures multiset(Filter(reqs, IsNewRequest()))[r] == if r.status == New then multiset(reqs)[r] else 0
  {
    FilterMultiset(reqs, IsNewRequest(), r);
  }

  lemma VerifiedCountMeaning(ps: seq<Property>)
    ensures VerifiedCount(ps) <= |ps|
    ensures VerifiedCount(ps) == |ps| <==> forall i :: 0 <= i < |ps| ==> ps[i].verified
    ensures VerifiedCount(ps) == 0 <==> forall i :: 0 <= i < |ps| ==> !ps[i].verified
  {
    CountMeaning(ps, IsVerified());
  }

  /** "Verified" counts every copy of each verified listing and nothing else. */
  lemma VerifiedCounted(ps: seq<Property>, p: Property)
    ensures VerifiedCount(ps) == |multiset(Filter(ps, IsVerified()))|
    ensures multiset(Filter(ps, IsVerified()))[p] == if p.verified then multiset(ps)[p] else 0
  {
    FilterMultiset(ps, IsVerified(), p);
  }

  /** Recent activity is the first five requests (all of them when fewer), in order. */
  lemma RecentActivityMeaning(reqs: seq<AccommodationRequest>)
    ensures |RecentActivity(reqs)| == if |reqs| < 5 then |reqs| else 5
    ensures RecentActivity(reqs) == reqs[..|RecentActivity(reqs)|]
  {
  }

  /** Only TENANT gets the owner view, whose figures all come from the user's
      own listings; every other role, NONE included, gets the seeker view with
      the wishlist and request counts. */
  lemma DashboardRoles(u: User, all: seq<Property>, reqs: seq<AccommodationRequest>, wishlist: seq<Property>)
    ensures DashboardOf(u, all, reqs, wishlist).OwnerDashboard? <==> u.role == Tenant
    ensures u.role != Tenant ==> DashboardOf(u, all, reqs, wishlist) == SeekerDashboard(|wishlist|, |reqs|)
    ensures u.role == Tenant ==>
      var d := DashboardOf(u, all, reqs, wishlist);
      && (forall p :: p in d.properties <==> p in all && p.ownerId == u.id)
      && d.totalListings == |d.properties|
      && d.verified <= d.totalListings
      && d.newRequests <= |reqs|
      && |d.recent| <= 5
  {
    if u.role == Tenant {
      var mine := OwnerProperties(all, u.id);
      forall p ensures p in mine <==> p in all && p.ownerId == u.id {
        OwnerPropertiesMeaning(all, u.id, p);
      }
      VerifiedCountMeaning(mine);
      NewRequestCountMeaning(reqs);
    }
  }
}
