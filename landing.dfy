/** pages/Landing.tsx: the featured listings and the "list your property" button. */
module Landing {
  import opened Types
  import opened Seqs
  import Api
  import Navigation

  /** `props.slice(0, 3)` */
  function Featured(ps: seq<Property>): seq<Property>
  {
    Take(ps, 3)
  }

  /** The featured listings are the first three fetched (all of them when
      fewer), in the order fetched. */
  lemma FeaturedMeaning(ps: seq<Property>)
    ensures |Featured(ps)| == if |ps| < 3 then |ps| else 3
    ensures Featured(ps) == ps[..|Featured(ps)|]
    ensures |ps| <= 3 ==> Featured(ps) == ps
  {
  }

  /** handleListProperty: where the button leads, and whether a seeker is
      first made an owner. `None` is no navigation. */
  datatype ListOutcome = ListOutcome(navigateTo: Option<string>, promote: bool)

  function ListProperty(user: Option<User>, confirmSwitch: bool): ListOutcome
  {
    if user.None? then ListOutcome(Some(Navigation.AuthPage), false)
    else if user.value.role == Tenant then ListOutcome(Some(Navigation.AddPropertyPage), false)
    else if user.value.role == Seeker then
      if confirmSwitch then ListOutcome(Some(Navigation.AddPropertyPage), true)
      else ListOutcome(None, false)
    else ListOutcome(Some(Navigation.RoleSelectionPage), false)
  }

  /** Only a seeker who confirms is promoted, and only owners (or the promoted
      seeker) reach the listing wizard; nobody signed in goes to sign in, and a
      user without a role to role selection. */
  lemma ListPropertyMeaning(user: Option<User>, confirmSwitch: bool)
    ensures ListProperty(user, confirmSwitch).promote <==> user.Some? && user.value.role == Seeker && confirmSwitch
    ensures ListProperty(user, confirmSwitch).navigateTo == Some(Navigation.AddPropertyPage) <==>
            user.Some? && (user.value.role == Tenant || (user.value.role == Seeker && confirmSwitch))
    ensures user.None? ==> ListProperty(user, confirmSwitch).navigateTo == Some(Navigation.AuthPage)
    ensures user.Some? && user.value.role == NoRole ==>
            ListProperty(user, confirmSwitch).navigateTo == Some(Navigation.RoleSelectionPage)
    ensures ListProperty(user, confirmSwitch).navigateTo.None? <==> user.Some? && user.value.role == Seeker && !confirmSwitch
  {
  }

  const OwnerPatch: Api.UserPatch := Api.EmptyPatch.(role := Some(Tenant))

  /** The handler with its update: a confirmed switch writes the role TENANT
      (and nothing else) to the signed-in user's row before navigating; if
      that update fails the handler stops without navigating. */
  method HandleListProperty(store: Api.Store, user: Option<User>, confirmSwitch: bool, fault: bool)
    returns (navigateTo: Option<string>)
    requires store.Valid()
    modifies store`users
    ensures store.Valid()
    ensures !ListProperty(user, confirmSwitch).promote ==>
      navigateTo == ListProperty(user, confirmSwitch).navigateTo && store.users == old(store.users)
    ensures ListProperty(user, confirmSwitch).promote ==>
      if store.configured && store.session.Some? && !fault then
        && navigateTo == Some(Navigation.AddPropertyPage)
        && store.users == old(store.users)[store.session.value :=
             old(store.users)[store.session.value].(role := Tenant)]
      else navigateTo == None && store.users == old(store.users)
  {
    var outcome := ListProperty(user, confirmSwitch);
    if !outcome.promote {
      return outcome.navigateTo;
    }
    var r := store.UpdateProfile(OwnerPatch, fault);
    if r.Failure? {
      return None;
    }
    navigateTo := outcome.navigateTo;
  }
}
