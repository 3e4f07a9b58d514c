/** The profile save handler (`POST /api/profiles/save`): validation, the custom URL
    (claimed URL kept, otherwise a slug of the name made unique with the smallest free
    numeric suffix), the public profile URL, the stored preferences and the services list,
    over an abstract profiles table. */
module ProfileSave {
  import opened Common

  // ---------------------------------------------------------------------------
  // The custom URL slug

  predicate IsSlugChar(c: char) {
    IsLowerAscii(c) || IsDigit(c) || c == '-'
  }

  predicate IsSlug(s: string) {
    forall i :: 0 <= i < |s| ==> IsSlugChar(s[i])
  }

  /** `.toLowerCase().replace(/\s+/g, '-').replace(/[^a-z0-9-]/g, '')`. */
  function Slugify(s: string): (r: string)
    ensures IsSlug(r) && NoSpace(r)
  {
    var r := Filter(DashSpaces(ToLower(s)), IsSlugChar);
    FilterAllKept(DashSpaces(ToLower(s)), IsSlugChar);
    r
  }

  /** The slug of a slug is itself. */
  lemma SlugifyIdempotent(s: string)
    ensures Slugify(Slugify(s)) == Slugify(s)
  {
    var t := Slugify(s);
    ToLowerIdentity(t);
    DashSpacesIdentity(t);
    FilterKeepsAll(t, IsSlugChar);
  }

  /** A string that is already a slug is its own slug. */
  lemma SlugifyFixesSlugs(s: string)
    requires IsSlug(s)
    ensures Slugify(s) == s
  {
    ToLowerIdentity(s);
    DashSpacesIdentity(s);
    FilterKeepsAll(s, IsSlugChar);
  }

  function BaseSlug(firstName: string, lastName: string): (r: string)
    ensures IsSlug(r) && NoSpace(r)
  {
    Slugify(firstName + "-" + lastName)
  }

  // ---------------------------------------------------------------------------
  // The smallest free numeric suffix

  function Candidate(base: string, k: nat): string {
    base + "-" + NatToString(k)
  }

  /** Reads the suffix number back from a candidate. */
  lemma CandidateSuffix(base: string, k: nat)
    ensures |Candidate(base, k)| > |base| + 1
    ensures ParseNat(Candidate(base, k)[|base| + 1..]) == k
  {
    assert Candidate(base, k)[|base| + 1..] == NatToString(k);
    ParseNatToString(k);
  }

  /** Tries `base-1`, `base-2`, ... until one is not taken. */
  method FindFreeUrl(base: string, taken: set<string>) returns (url: string, k: nat)
    ensures k >= 1 && url == Candidate(base, k)
    ensures url !in taken
    ensures forall j :: 1 <= j < k ==> Candidate(base, j) in taken
  {
    k := 1;
    ghost var tried: set<string> := {};
    CandidateSuffix(base, k);
    while Candidate(base, k) in taken
      invariant k >= 1
      invariant forall j :: 1 <= j < k ==> Candidate(base, j) in taken
      invariant tried <= taken
      invariant forall x :: x in tried ==> |x| > |base| + 1 && ParseNat(x[|base| + 1..]) < k
      decreases taken - tried
    {
      var c := Candidate(base, k);
      CandidateSuffix(base, k);
      // its suffix reads back as k, and every earlier try's as less
      assert c !in tried;
      tried := tried + {c};
      k := k + 1;
    }
    url := Candidate(base, k);
  }

  // ---------------------------------------------------------------------------
  // The public profile URL

  datatype UrlParts = UrlParts(protocol: string, host: string)

  /** `protocol//host` of the origin header, else of the referer, if it parses; else the
      configured site URL; else the production address. `parse` stands for `new URL(...)`. */
  function BaseUrl(origin: Option<string>, referer: Option<string>,
                   parse: string -> Option<UrlParts>, siteUrl: Option<string>): (r: string)
    ensures r != ""
    ensures StrTruthy(origin) && parse(origin.value).Some? ==>
      r == parse(origin.value).value.protocol + "//" + parse(origin.value).value.host
    // the referer is read only when there is no origin header, not when it fails to parse
    ensures var h := StrOrEmpty(StrOr(origin, referer));
      !StrTruthy(origin) && h != "" && parse(h).Some? ==> h == referer.value && r == parse(h).value.protocol + "//" + parse(h).value.host
    ensures var h := StrOrEmpty(StrOr(origin, referer));
      (h == "" || parse(h).None?) ==> r == (if StrTruthy(siteUrl) then siteUrl.value else "https://linkist.ai")
  {
    var header := StrOrEmpty(StrOr(origin, referer));
    var fromHeader :=
      if header != "" && parse(header).Some? then parse(header).value.protocol + "//" + parse(header).value.host
      else "";
    if fromHeader != "" then fromHeader
    else if StrTruthy(siteUrl) then siteUrl.value
    else "https://linkist.ai"
  }

  // ---------------------------------------------------------------------------
  // Stored preferences

  const TrueByDefault: seq<string> := [
    "showEmailPublicly", "showSecondaryEmailPublicly", "showMobilePublicly",
    "showJobTitle", "showCompanyName", "showCompanyWebsite", "showCompanyAddress",
    "showIndustry", "showSkills", "showProfilePhoto", "showBackgroundImage"]

  const FalseByDefault: seq<string> := [
    "showWhatsappPublicly", "showLinkedin", "showInstagram", "showFacebook", "showTwitter",
    "showBehance", "showDribbble", "showGithub", "showYoutube"]

  const TextFields: seq<string> := [
    "secondaryEmail", "whatsappNumber", "jobTitle", "companyWebsite", "companyAddress",
    "industry", "subDomain", "professionalSummary", "linkedinUrl", "instagramUrl",
    "facebookUrl", "twitterUrl", "behanceUrl", "dribbbleUrl", "githubUrl", "youtubeUrl"]

  const ListFields: seq<string> := ["skills", "photos", "videos", "certifications"]

  const NullableFields: seq<string> := ["companyLogo", "backgroundImage"]

  predicate IsPreferenceKey(k: string) {
    k in TrueByDefault || k in FalseByDefault || k in TextFields || k in ListFields || k in NullableFields
  }

  /** One preference: flags with `??` and their default, text with `|| ''`,
      lists with `|| []`, and the two images with `|| null`. */
  function PreferenceValue(data: JsonObject, k: string): Json {
    if k in TrueByDefault then Coalesce(Get(data, k), JBool(true))
    else if k in FalseByDefault then Coalesce(Get(data, k), JBool(false))
    else if k in TextFields then Or(Get(data, k), Some(JStr(""))).value
    else if k in ListFields then Or(Get(data, k), Some(JArr([]))).value
    else Or(Get(data, k), Some(JNull)).value
  }

  function Preferences(data: JsonObject): (p: JsonObject)
    ensures forall k :: k in p <==> IsPreferenceKey(k)
  {
    map k | k in TrueByDefault + FalseByDefault + TextFields + ListFields + NullableFields :: PreferenceValue(data, k)
  }

  /** An explicit flag value, `false` included, is stored as given; an absent or null flag
      takes its default: true for contact and professional fields and the images, false for
      WhatsApp and the social networks. */
  lemma PreferenceFlags(data: JsonObject, k: string)
    ensures k in TrueByDefault ==>
      Preferences(data)[k] == (if k in data && data[k] != JNull then data[k] else JBool(true))
    ensures k in FalseByDefault ==>
      Preferences(data)[k] == (if k in data && data[k] != JNull then data[k] else JBool(false))
  {
    if k in TrueByDefault {
      assert k !in FalseByDefault;
    }
  }

  // ---------------------------------------------------------------------------
  // Services

  datatype ServiceInput = ServiceInput(
    title: Option<string>, description: Option<string>, pricing: Option<string>,
    category: Option<string>, showPublicly: Option<Json>)

  datatype ServiceRow = ServiceRow(
    profileId: string, title: string, description: string, pricing: string, category: string,
    isActive: bool, displayOrder: nat)

  predicate HasTitle(s: ServiceInput) {
    StrTruthy(s.title)
  }

  /** Only services with a title are kept, numbered 0, 1, 2, ... in input order. */
  function ServiceRows(profileId: string, services: seq<ServiceInput>): (rows: seq<ServiceRow>)
    ensures var kept := Filter(services, HasTitle);
      |rows| == |kept| &&
      forall i :: 0 <= i < |rows| ==>
        rows[i].displayOrder == i && rows[i].profileId == profileId &&
        Some(rows[i].title) == kept[i].title && rows[i].title != "" &&
        rows[i].isActive == (kept[i].showPublicly != Some(JBool(false))) &&
        rows[i].description == StrOrEmpty(kept[i].description) &&
        rows[i].pricing == StrOrEmpty(kept[i].pricing) &&
        rows[i].category == StrOrEmpty(kept[i].category)
  {
    var kept := Filter(services, HasTitle);
    FilterAllKept(services, HasTitle);
    seq(|kept|, i requires 0 <= i < |kept| =>
      ServiceRow(profileId, kept[i].title.value, StrOrEmpty(kept[i].description),
                 StrOrEmpty(kept[i].pricing), StrOrEmpty(kept[i].category),
                 kept[i].showPublicly != Some(JBool(false)), i))
  }

  /** A service is saved exactly when it has a title. */
  lemma SavedServicesAreTitled(profileId: string, services: seq<ServiceInput>, s: ServiceInput)
    ensures s in Filter(services, HasTitle) <==> s in services && StrTruthy(s.title)
  {
    FilterMembership(services, HasTitle, s);
  }

  // ---------------------------------------------------------------------------
  // The handler over the profiles table

  datatype SaveRequest = SaveRequest(
    email: Option<string>,
    firstName: Option<string>,
    lastName: Option<string>,
    userId: Option<string>,
    mobileNumber: Option<string>,
    companyName: Option<string>,
    profilePhoto: Option<string>,
    isFounderMember: bool,
    fields: JsonObject,                      // what the preferences read
    services: Option<seq<ServiceInput>>)     // None when not an array

  datatype Headers = Headers(origin: Option<string>, referer: Option<string>)

  datatype Environment = Environment(
    parse: string -> Option<UrlParts>,
    siteUrl: Option<string>,
    newProfileId: string,
    upsertFails: bool,
    servicesDeleteFails: bool,   // reported as an error value, which the handler ignores
    servicesInsertFails: bool)

  datatype ProfileRow = ProfileRow(
    id: string,
    email: string,
    userId: Option<string>,
    firstName: string,
    lastName: string,
    phoneNumber: Option<string>,
    company: Option<string>,
    isFounderMember: bool,
    avatarUrl: Option<string>,
    customUrl: Option<string>,
    profileUrl: string,
    preferences: JsonObject)

  datatype SaveResponse =
    | Failed(status: nat, error: string)
    | Saved(id: string, email: string, customUrl: string)

  /** The row upserted for a request: falsy optional columns become null, and the profile
      URL is the base URL and the custom URL joined by '/'. */
  function RowFor(req: SaveRequest, id: string, url: string, baseUrl: string): (row: ProfileRow)
    requires req.email.Some? && req.firstName.Some? && req.lastName.Some?
    ensures row.id == id && row.email == req.email.value
    ensures row.firstName == req.firstName.value && row.lastName == req.lastName.value
    ensures row.isFounderMember == req.isFounderMember
    ensures row.customUrl == Some(url) && row.profileUrl == baseUrl + "/" + url
    ensures row.preferences == Preferences(req.fields)
    // a given value is stored as it is; an empty or missing one as null
    ensures StrTruthy(req.userId) ==> row.userId == req.userId
    ensures !StrTruthy(req.userId) ==> row.userId.None?
    ensures StrTruthy(req.mobileNumber) ==> row.phoneNumber == req.mobileNumber
    ensures !StrTruthy(req.mobileNumber) ==> row.phoneNumber.None?
    ensures StrTruthy(req.companyName) ==> row.company == req.companyName
    ensures !StrTruthy(req.companyName) ==> row.company.None?
    ensures StrTruthy(req.profilePhoto) ==> row.avatarUrl == req.profilePhoto
    ensures !StrTruthy(req.profilePhoto) ==> row.avatarUrl.None?
  {
    ProfileRow(id, req.email.value, StrOr(req.userId, None), req.firstName.value, req.lastName.value,
               StrOr(req.mobileNumber, None), StrOr(req.companyName, None),
               req.isFounderMember, StrOr(req.profilePhoto, None),
               Some(url), baseUrl + "/" + url, Preferences(req.fields))
  }

  /** The custom URLs the profile rows hold. */
  function TakenUrls(profiles: map<string, ProfileRow>): (t: set<string>)
    ensures forall u :: u in t <==> exists e :: e in profiles && profiles[e].customUrl == Some(u)
  {
    set e | e in profiles && profiles[e].customUrl.Some? :: profiles[e].customUrl.value
  }

  /** The URL picked for a caller who owns none: the name's slug `base` if no other e-mail
      owns it, else `base-k` for the smallest `k >= 1` nobody owns. */
  ghost predicate ChosenForName(profiles: map<string, ProfileRow>, email: string, base: string, url: string) {
    if exists e :: e in profiles && e != email && profiles[e].customUrl == Some(base)
    then exists k: nat :: k >= 1 && url == Candidate(base, k) && url !in TakenUrls(profiles)
           && forall j :: 1 <= j < k ==> Candidate(base, j) in TakenUrls(profiles)
    else url == base
  }

  /** The service rows stored for a profile id; none when there is no entry. */
  function RowsOf(services: map<string, seq<ServiceRow>>, id: string): seq<ServiceRow> {
    if id in services then services[id] else []
  }

  class ProfileTable {
    var profiles: map<string, ProfileRow>       // keyed by e-mail
    var services: map<string, seq<ServiceRow>>  // keyed by profile id

    constructor ()
      ensures profiles == map[] && services == map[] && Valid()
    {
      profiles, services := map[], map[];
    }

    /** Each row is stored under its e-mail, and no custom URL belongs to two rows. */
    ghost predicate Valid()
      reads this`profiles
    {
      && (forall e :: e in profiles ==> profiles[e].email == e)
      && (forall e1, e2 ::
            (e1 in profiles && e2 in profiles && profiles[e1].customUrl.Some?
             && profiles[e1].customUrl == profiles[e2].customUrl) ==> e1 == e2)
    }

    /** A claimed URL is kept; else the name's slug if nobody else owns it; else the slug
        with the smallest free numeric suffix. */
    method ChooseCustomUrl(email: string, firstName: string, lastName: string) returns (url: string)
      requires Valid()
      ensures email in profiles && StrTruthy(profiles[email].customUrl) ==> url == profiles[email].customUrl.value
      ensures !(email in profiles && StrTruthy(profiles[email].customUrl)) ==>
        ChosenForName(profiles, email, BaseSlug(firstName, lastName), url)
      // nobody else owns the chosen URL, so saving keeps URLs unique
      ensures forall e :: e in profiles && e != email ==> profiles[e].customUrl != Some(url)
    {
      if email in profiles && StrTruthy(profiles[email].customUrl) {
        url := profiles[email].customUrl.value;
        return;
      }
      var base := BaseSlug(firstName, lastName);
      if e :| e in profiles && e != email && profiles[e].customUrl == Some(base) {
        var k;
        url, k := FindFreeUrl(base, TakenUrls(profiles));
      } else {
        url := base;
      }
    }

    /** Upserts a row whose URL nobody else owns. */
    method StoreRow(row: ProfileRow)
      requires Valid()
      requires row.customUrl.Some?
      requires forall e :: e in profiles && e != row.email ==> profiles[e].customUrl != row.customUrl
      modifies this`profiles
      ensures Valid()
      ensures profiles == old(profiles)[row.email := row]
    {
      profiles := profiles[row.email := row];
    }

    /** Delete the profile's services, then insert the titled ones. Neither result is checked:
        a failed delete leaves the old rows, and the new ones are added after them. */
    method ReplaceServices(id: string, given: seq<ServiceInput>, deleteFails: bool, insertFails: bool)
      modifies this`services
      ensures services == old(services)[id := (if deleteFails then RowsOf(old(services), id) else [])
                                              + (if insertFails then [] else ServiceRows(id, given))]
    {
      var kept := if deleteFails then RowsOf(services, id) else [];
      var added := if insertFails then [] else ServiceRows(id, given);
      services := services[id := kept + added];
    }

    method Save(req: SaveRequest, headers: Headers, env: Environment) returns (resp: SaveResponse)
      requires Valid()
      modifies this
      ensures Valid()
      ensures !StrTruthy(req.email) ==> resp == Failed(400, "Email is required") && unchanged(this)
      ensures StrTruthy(req.email) && !(StrTruthy(req.firstName) && StrTruthy(req.lastName)) ==>
        resp == Failed(400, "First name and last name are required") && unchanged(this)
      ensures StrTruthy(req.email) && StrTruthy(req.firstName) && StrTruthy(req.lastName) ==>
        (resp.Failed? <==> env.upsertFails)
      ensures resp.Failed? ==> profiles == old(profiles) && services == old(services)
      ensures resp.Saved? ==>
        var e := req.email.value;
        && resp.email == e
        && resp.id == (if e in old(profiles) then old(profiles)[e].id else env.newProfileId)
        // the caller's row is the row built from the request, and only it changes
        && profiles == old(profiles)[e := RowFor(req, resp.id, resp.customUrl,
                                                 BaseUrl(headers.origin, headers.referer, env.parse, env.siteUrl))]
        && (e in old(profiles) && StrTruthy(old(profiles)[e].customUrl) ==>
              resp.customUrl == old(profiles)[e].customUrl.value)
        && (!(e in old(profiles) && StrTruthy(old(profiles)[e].customUrl)) ==>
              ChosenForName(old(profiles), e, BaseSlug(req.firstName.value, req.lastName.value), resp.customUrl))
      ensures resp.Saved? && req.services.Some? ==>
        services == old(services)[resp.id := (if env.servicesDeleteFails then RowsOf(old(services), resp.id) else [])
                                             + (if env.servicesInsertFails then [] else ServiceRows(resp.id, req.services.value))]
      ensures resp.Saved? && req.services.None? ==> services == old(services)
    {
      if !StrTruthy(req.email) {
        return Failed(400, "Email is required");
      }
      if !StrTruthy(req.firstName) || !StrTruthy(req.lastName) {
        return Failed(400, "First name and last name are required");
      }
      var email := req.email.value;
      var url := ChooseCustomUrl(email, req.firstName.value, req.lastName.value);
      var baseUrl := BaseUrl(headers.origin, headers.referer, env.parse, env.siteUrl);
      if env.upsertFails {
        return Failed(500, "Failed to save profile");
      }
      var id := if email in profiles then profiles[email].id else env.newProfileId;
      var row := RowFor(req, id, url, baseUrl);
      StoreRow(row);
      if req.services.Some? {
        ReplaceServices(id, req.services.value, env.servicesDeleteFails, env.servicesInsertFails);
      }
      resp := Saved(id, email, url);
    }
  }
}
