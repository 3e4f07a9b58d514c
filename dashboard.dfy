/** The profile dashboard (`/profiles/dashboard`): the list of profile cards, how it is
    loaded (from the profile API or from local storage, filtered by the signed-in user),
    deleting and duplicating a card, the statistics shown above the list and the status
    colours. */
module Dashboard {
  import opened Common

  datatype Profile = Profile(
    id: string, name: string, title: string, company: string, image: Option<string>,
    status: string, views: int, clicks: int, shares: int, lastUpdated: string,
    publicUrl: string, userEmail: Option<string>)

  // ---------------------------------------------------------------------------
  // Statistics

  /** `profiles.reduce((sum, p) => sum + f(p), 0)`, folding from the left. */
  function Sum(ps: seq<Profile>, f: Profile -> int): (s: int)
    ensures ps == [] ==> s == 0
    ensures |ps| == 1 ==> s == f(ps[0])
    // counters are never negative, so neither are the totals shown
    ensures (forall i :: 0 <= i < |ps| ==> f(ps[i]) >= 0) ==> s >= 0
    // a total is at least each of its counters
    ensures (forall i :: 0 <= i < |ps| ==> f(ps[i]) >= 0) ==> forall i :: 0 <= i < |ps| ==> f(ps[i]) <= s
  {
    if ps == [] then 0 else Sum(ps[..|ps| - 1], f) + f(ps[|ps| - 1])
  }

  function Views(p: Profile): int { p.views }
  function Clicks(p: Profile): int { p.clicks }
  function Shares(p: Profile): int { p.shares }

  lemma {:induction false} SumAppend(a: seq<Profile>, b: seq<Profile>, f: Profile -> int)
    ensures Sum(a + b, f) == Sum(a, f) + Sum(b, f)
    decreases |b|
  {
    if b != [] {
      assert (a + b)[..|a + b| - 1] == a + b[..|b| - 1];
      SumAppend(a, b[..|b| - 1], f);
    } else {
      assert a + b == a;
    }
  }

  predicate IsActive(p: Profile) {
    p.status == "active"
  }

  /** `profiles.filter(p => p.status === 'active').length`, shown "of N total profiles". */
  function ActiveCount(ps: seq<Profile>): (n: nat)
    ensures n <= |ps|
  {
    |Filter(ps, IsActive)|
  }

  /** The colour classes of a status badge; any unknown status is grey like 'inactive'. */
  function StatusColor(status: string): (c: string)
    ensures status == "active" ==> c == "bg-green-100 text-green-800"
    ensures status == "draft" ==> c == "bg-yellow-100 text-yellow-800"
    ensures c == "bg-gray-100 text-gray-800" <==> status != "active" && status != "draft"
  {
    if status == "active" then "bg-green-100 text-green-800"
    else if status == "draft" then "bg-yellow-100 text-yellow-800"
    else "bg-gray-100 text-gray-800"
  }

  // ---------------------------------------------------------------------------
  // Delete and duplicate

  predicate NotId(id: string, p: Profile) {
    p.id != id
  }

  /** `p => p.id !== id`. */
  function NotIdOf(id: string): Profile -> bool {
    p => NotId(id, p)
  }

  /** The list without the profiles that have this id, in their order. */
  function Without(ps: seq<Profile>, id: string): (r: seq<Profile>)
    ensures |r| <= |ps|
    ensures forall p :: p in r <==> p in ps && p.id != id
  {
    var r := Filter(ps, NotIdOf(id));
    forall p ensures p in r <==> p in ps && p.id != id {
      FilterMembership(ps, NotIdOf(id), p);
    }
    r
  }

  /** The copy appended by "Duplicate". */
  function CopyOf(p: Profile, newId: string): (c: Profile)
    ensures c.id == newId && c.name == p.name + " (Copy)" && c.status == "draft"
    ensures c.views == 0 && c.clicks == 0 && c.shares == 0 && c.lastUpdated == "Just now"
    ensures c.title == p.title && c.company == p.company && c.image == p.image
      && c.publicUrl == p.publicUrl && c.userEmail == p.userEmail
  {
    p.(id := newId, name := p.name + " (Copy)", status := "draft",
       views := 0, clicks := 0, shares := 0, lastUpdated := "Just now")
  }

  /** Duplicating adds one card but no views, clicks, shares or active profile. */
  lemma DuplicateKeepsStatistics(ps: seq<Profile>, p: Profile, newId: string)
    ensures var qs := ps + [CopyOf(p, newId)];
      && |qs| == |ps| + 1
      && Sum(qs, Views) == Sum(ps, Views)
      && Sum(qs, Clicks) == Sum(ps, Clicks)
      && Sum(qs, Shares) == Sum(ps, Shares)
      && ActiveCount(qs) == ActiveCount(ps)
  {
    var c := CopyOf(p, newId);
    SumAppend(ps, [c], Views);
    SumAppend(ps, [c], Clicks);
    SumAppend(ps, [c], Shares);
    assert Filter([c], IsActive) == [];
    FilterAppend(ps, [c], IsActive);
  }

  /** Deleting keeps every other card where it was, relative to the cards around it. */
  lemma DeleteKeepsOthersInOrder(a: seq<Profile>, p: Profile, b: seq<Profile>, id: string)
    requires p.id != id
    ensures Without(a + [p] + b, id) == Without(a, id) + [p] + Without(b, id)
  {
    FilterAppend(a + [p], b, NotIdOf(id));
    FilterAppend(a, [p], NotIdOf(id));
    assert Filter([p], NotIdOf(id)) == [p];
  }

  /** Deleting an id no card has changes nothing. */
  lemma DeleteUnknownIdChangesNothing(ps: seq<Profile>, id: string)
    requires forall i :: 0 <= i < |ps| ==> ps[i].id != id
    ensures Without(ps, id) == ps
  {
    FilterKeepsAll(ps, NotIdOf(id));
  }

  /** Deleting never adds an active profile. */
  lemma {:induction false} DeleteNeverAddsActive(ps: seq<Profile>, id: string)
    ensures ActiveCount(Without(ps, id)) <= ActiveCount(ps)
  {
    if ps != [] {
      DeleteNeverAddsActive(ps[1..], id);
      var head := if NotId(id, ps[0]) then [ps[0]] else [];
      assert Without(ps, id) == head + Without(ps[1..], id);
      FilterAppend(head, Without(ps[1..], id), IsActive);
    }
  }

  // ---------------------------------------------------------------------------
  // Loading

  /** What `localStorage.getItem('userProfiles')` held. */
  datatype StoredProfiles = Missing | Unparseable | Parsed(list: seq<Profile>)

  /** `!p.userEmail || p.userEmail === userEmail`. */
  predicate OwnedBy(email: string, p: Profile) {
    !StrTruthy(p.userEmail) || p.userEmail == Some(email)
  }

  /** The stored profiles of this user or of nobody, in their order. */
  function VisibleTo(ps: seq<Profile>, email: string): (r: seq<Profile>)
    ensures forall p :: p in r <==> p in ps && (!StrTruthy(p.userEmail) || p.userEmail == Some(email))
    ensures |r| <= |ps|
  {
    var r := Filter(ps, p => OwnedBy(email, p));
    forall p ensures p in r <==> p in ps && OwnedBy(email, p) {
      FilterMembership(ps, p => OwnedBy(email, p), p);
    }
    r
  }

  /** `loadProfilesFromLocalStorage`: nothing stored or unparseable gives an empty list. */
  function FromLocalStorage(stored: StoredProfiles, email: string): (r: seq<Profile>)
    ensures !stored.Parsed? ==> r == []
    ensures stored.Parsed? ==> r == VisibleTo(stored.list, email)
  {
    if stored.Parsed? then VisibleTo(stored.list, email) else []
  }

  /** A profile row from the profile API. */
  datatype ApiProfile = ApiProfile(
    id: string, name: Option<string>, title: Option<string>, designation: Option<string>,
    company: Option<string>, image: Option<string>, profileImage: Option<string>,
    username: Option<string>, updatedAt: Option<string>, createdAt: Option<string>)

  /** The card built from an API row; `domain` stands for `getBaseDomain()` and `formatDate`
      for the locale date formatting of the update or creation time. */
  function FromApi(p: ApiProfile, domain: string, formatDate: Option<string> -> string): (c: Profile)
    ensures c.id == p.id && c.status == "active" && c.views == 0 && c.clicks == 0 && c.shares == 0
    ensures c.name != "" && (StrTruthy(p.name) ==> c.name == p.name.value)
    ensures !StrTruthy(p.name) ==> c.name == "Unnamed Profile"
    ensures StrTruthy(p.title) ==> c.title == p.title.value
    ensures !StrTruthy(p.title) && StrTruthy(p.designation) ==> c.title == p.designation.value
    ensures !StrTruthy(p.title) && !StrTruthy(p.designation) ==> c.title == ""
    ensures c.publicUrl == domain + "/" + (if StrTruthy(p.username) then p.username.value else p.id)
    ensures c.userEmail.None?
  {
    Profile(p.id, StrOr(p.name, Some("Unnamed Profile")).value,
            StrOrEmpty(StrOr(p.title, p.designation)), StrOrEmpty(p.company),
            StrOr(p.image, p.profileImage), "active", 0, 0, 0,
            formatDate(StrOr(p.updatedAt, p.createdAt)),
            domain + "/" + StrOr(p.username, Some(p.id)).value, None)
  }

  function FromApiAll(ps: seq<ApiProfile>, domain: string, formatDate: Option<string> -> string): (r: seq<Profile>)
    ensures |r| == |ps| && forall i :: 0 <= i < |r| ==> r[i] == FromApi(ps[i], domain, formatDate)
  {
    seq(|ps|, i requires 0 <= i < |ps| => FromApi(ps[i], domain, formatDate))
  }

  /** Cards loaded from the API are all active and start with no views, clicks or shares. */
  lemma ApiCardsStartEmpty(ps: seq<ApiProfile>, domain: string, formatDate: Option<string> -> string)
    ensures var cs := FromApiAll(ps, domain, formatDate);
      ActiveCount(cs) == |cs| && Sum(cs, Views) == 0 && Sum(cs, Clicks) == 0 && Sum(cs, Shares) == 0
  {
    var cs := FromApiAll(ps, domain, formatDate);
    FilterKeepsAll(cs, IsActive);
    SumOfZeros(cs, Views);
    SumOfZeros(cs, Clicks);
    SumOfZeros(cs, Shares);
  }

  lemma {:induction false} SumOfZeros(ps: seq<Profile>, f: Profile -> int)
    requires forall i :: 0 <= i < |ps| ==> f(ps[i]) == 0
    ensures Sum(ps, f) == 0
    decreases |ps|
  {
    if ps != [] {
      SumOfZeros(ps[..|ps| - 1], f);
    }
  }

  datatype AuthResult = AuthNotOk | AuthThrew | AuthOk(isAuthenticated: bool, email: Option<string>)
  datatype ProfilesResult = ApiNotOk | ApiThrew | ApiOk(success: bool, profiles: Option<seq<ApiProfile>>)

  const LoginRedirect := "/login?returnUrl=/profiles/dashboard"

  /** Signed in: the authentication answer was OK, says so, and names an e-mail. */
  predicate SignedIn(auth: AuthResult) {
    auth.AuthOk? && auth.isAuthenticated && StrTruthy(auth.email)
  }

  /** An exception on either request falls back to the stored list as it is. */
  predicate Threw(auth: AuthResult, api: ProfilesResult) {
    auth.AuthThrew? || (SignedIn(auth) && api.ApiThrew?)
  }

  class ProfileDashboard {
    var profiles: seq<Profile>
    var stored: StoredProfiles
    var navigateTo: Option<string>

    constructor (initial: StoredProfiles)
      ensures profiles == [] && stored == initial && navigateTo == None
    {
      profiles, stored, navigateTo := [], initial, None;
    }

    /** The load step when the page mounts. */
    method Load(auth: AuthResult, api: ProfilesResult, domain: string, formatDate: Option<string> -> string)
      modifies this`profiles, this`navigateTo
      ensures !SignedIn(auth) && !auth.AuthThrew? ==> navigateTo == Some(LoginRedirect) && profiles == old(profiles)
      ensures SignedIn(auth) && api.ApiOk? && api.success && api.profiles.Some? ==>
        profiles == FromApiAll(api.profiles.value, domain, formatDate)
      ensures SignedIn(auth) && (api.ApiNotOk? || (api.ApiOk? && !(api.success && api.profiles.Some?))) ==>
        profiles == FromLocalStorage(stored, auth.email.value)
      // after an exception the stored list is shown unfiltered (and nothing if it does not parse)
      ensures Threw(auth, api) ==> profiles == (if stored.Parsed? then stored.list else old(profiles))
      ensures navigateTo != old(navigateTo) ==> navigateTo == Some(LoginRedirect)
      // only a load without a signed-in user redirects
      ensures SignedIn(auth) || auth.AuthThrew? ==> navigateTo == old(navigateTo)
    {
      match auth
      case AuthThrew =>
        if stored.Parsed? {
          profiles := stored.list;
        }
      case AuthNotOk =>
        navigateTo := Some(LoginRedirect);
      case AuthOk(isAuthenticated, email) =>
        if !isAuthenticated || !StrTruthy(email) {
          navigateTo := Some(LoginRedirect);
        } else {
          match api
          case ApiThrew =>
            if stored.Parsed? {
              profiles := stored.list;
            }
          case ApiNotOk =>
            profiles := FromLocalStorage(stored, email.value);
          case ApiOk(success, list) =>
            if success && list.Some? {
              profiles := FromApiAll(list.value, domain, formatDate);
            } else {
              profiles := FromLocalStorage(stored, email.value);
            }
        }
    }

    /** "Delete": only after the user confirms; the new list is also stored. */
    method DeleteProfile(id: string, confirmed: bool)
      modifies this`profiles, this`stored
      ensures confirmed ==> profiles == Without(old(profiles), id) && stored == Parsed(profiles)
      ensures !confirmed ==> profiles == old(profiles) && stored == old(stored)
    {
      if confirmed {
        profiles := Without(profiles, id);
        stored := Parsed(profiles);
      }
    }

    /** "Duplicate": the copy goes to the end of the list, with `newId` standing for the
        current time in milliseconds; the new list is also stored. */
    method DuplicateProfile(p: Profile, newId: string)
      modifies this`profiles, this`stored
      ensures profiles == old(profiles) + [CopyOf(p, newId)] && stored == Parsed(profiles)
    {
      profiles := profiles + [CopyOf(p, newId)];
      stored := Parsed(profiles);
    }
  }

  /** After an exception the dashboard shows the stored list as it is (`Load`), so every
      stored profile of another user appears, which the per-user filter of the regular
      fallback hides: the two lists differ whenever such a profile is stored. */
  lemma ErrorFallbackSkipsUserFilter(ps: seq<Profile>, email: string, p: Profile)
    requires p in ps && StrTruthy(p.userEmail) && p.userEmail != Some(email)
    ensures p !in FromLocalStorage(Parsed(ps), email)
    ensures FromLocalStorage(Parsed(ps), email) != ps
  {
  }

  /** When every stored profile is the user's own or nobody's, both fallbacks show the same list. */
  lemma FallbacksAgreeOnOwnProfiles(ps: seq<Profile>, email: string)
    requires forall i :: 0 <= i < |ps| ==> OwnedBy(email, ps[i])
    ensures FromLocalStorage(Parsed(ps), email) == ps
  {
    FilterKeepsAll(ps, p => OwnedBy(email, p));
  }
}
