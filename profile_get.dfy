/** Reading a profile (`GET /api/profiles/get`): the error cases of the lookup, the mapping
    from the database row to the shape the front end expects, `parseSocialLinks`, and the
    services list. A row is a JSON object whose columns may be missing (undefined) or null;
    in the result an undefined field is `None`, which is how it is serialized: left out. */
module ProfileGet {
  import opened Common
  import ProfileSave

  // ---------------------------------------------------------------------------
  // Social links

  datatype Network = LinkedIn | Instagram | Facebook | Twitter | GitHub | YouTube | Behance | Dribbble

  /** The key a link may be stored under in `social_links`, e.g. `linkedin`; the alternative
      key is the same name followed by `Url`, which is also the key of the result. */
  function ShortKey(n: Network): string {
    match n
    case LinkedIn => "linkedin"
    case Instagram => "instagram"
    case Facebook => "facebook"
    case Twitter => "twitter"
    case GitHub => "github"
    case YouTube => "youtube"
    case Behance => "behance"
    case Dribbble => "dribbble"
  }

  function UrlKey(n: Network): string {
    ShortKey(n) + "Url"
  }

  /** A property read `v.key`: only objects have the stored keys; on an array it is undefined. */
  function Property(v: Json, key: string): (r: Option<Json>)
    ensures r.Some? <==> v.JObj? && key in v.fields
    ensures r.Some? ==> r.value == v.fields[key]
  {
    if v.JObj? then Get(v.fields, key) else None
  }

  /** `typeof v === 'object'` for a truthy value: objects and arrays. */
  predicate IsObjectValue(v: Option<Json>) {
    v.Some? && (v.value.JObj? || v.value.JArr?)
  }

  function LinkOf(links: Json, n: Network): Json {
    Or(Property(links, ShortKey(n)), Or(Property(links, UrlKey(n)), Some(JNull))).value
  }

  /** `parseSocialLinks`; None is the empty object, whose spread adds no key. */
  function ParseSocialLinks(links: Option<Json>): (r: Option<map<Network, Json>>)
    ensures r.None? <==> !IsObjectValue(links)
    ensures r.Some? ==> forall n: Network :: n in r.value
    // the short key wins over the `...Url` key; with both falsy the link is null
    ensures r.Some? ==> forall n: Network ::
      && (OptTruthy(Property(links.value, ShortKey(n))) ==> r.value[n] == Property(links.value, ShortKey(n)).value)
      && (!OptTruthy(Property(links.value, ShortKey(n))) && OptTruthy(Property(links.value, UrlKey(n))) ==>
            r.value[n] == Property(links.value, UrlKey(n)).value)
      && (!OptTruthy(Property(links.value, ShortKey(n))) && !OptTruthy(Property(links.value, UrlKey(n))) ==>
            r.value[n] == JNull)
  {
    if !IsObjectValue(links) then None
    else Some(map n: Network | true :: LinkOf(links.value, n))
  }

  /** A link in the result is either null or a truthy value taken from one of its two keys. */
  lemma SocialLinkSource(links: Option<Json>, n: Network)
    requires ParseSocialLinks(links).Some?
    ensures var v := ParseSocialLinks(links).value[n];
      v == JNull || (Truthy(v) && (Property(links.value, ShortKey(n)) == Some(v) || Property(links.value, UrlKey(n)) == Some(v)))
  {
  }

  // ---------------------------------------------------------------------------
  // Services

  /** A service id as the database returns it: a serial number or a uuid string. */
  datatype ServiceKey = Serial(n: nat) | Uuid(s: string)

  /** A `profile_services` row; text columns may be null. */
  datatype StoredService = StoredService(
    id: ServiceKey, profileId: string, title: Option<string>, description: Option<string>,
    pricing: Option<string>, category: Option<string>, isActive: Option<bool>, displayOrder: int)

  datatype ServiceView = ServiceView(
    id: string, title: Option<string>, description: string, pricing: string, category: string,
    showPublicly: Option<bool>)

  /** `id.toString()`. */
  function KeyString(k: ServiceKey): (s: string)
    ensures k.Serial? ==> ParseNat(s) == k.n && forall i :: 0 <= i < |s| ==> IsDigit(s[i])
    ensures k.Uuid? ==> s == k.s
  {
    match k
    case Serial(n) => ParseNatToString(n); NatToString(n)
    case Uuid(s) => s
  }

  /** One service as the front end sees it: text columns default to '', and whether it is
      shown publicly is the stored active flag. */
  function ViewService(s: StoredService): (v: ServiceView)
    ensures v.id == KeyString(s.id)
    ensures v.title == s.title && v.showPublicly == s.isActive
    ensures v.description == "" <==> !StrTruthy(s.description)
    ensures v.pricing == "" <==> !StrTruthy(s.pricing)
    ensures v.category == "" <==> !StrTruthy(s.category)
    ensures StrTruthy(s.description) ==> v.description == s.description.value
    ensures StrTruthy(s.pricing) ==> v.pricing == s.pricing.value
    ensures StrTruthy(s.category) ==> v.category == s.category.value
  {
    ServiceView(KeyString(s.id), s.title, StrOrEmpty(s.description), StrOrEmpty(s.pricing),
                StrOrEmpty(s.category), s.isActive)
  }

  /** `(services || []).map(...)`: one view per row, in the order the query returned them
      (by `display_order`); a failed query gives no services. */
  function ViewServices(rows: Option<seq<StoredService>>): (vs: seq<ServiceView>)
    ensures rows.None? ==> vs == []
    ensures rows.Some? ==> |vs| == |rows.value| && forall i :: 0 <= i < |vs| ==> vs[i] == ViewService(rows.value[i])
  {
    if rows.None? then [] else seq(|rows.value|, i requires 0 <= i < |rows.value| => ViewService(rows.value[i]))
  }

  /** A row written by the save handler, with the id the database gave it. */
  function FromSaved(id: ServiceKey, row: ProfileSave.ServiceRow): StoredService {
    StoredService(id, row.profileId, Some(row.title), Some(row.description), Some(row.pricing),
                  Some(row.category), Some(row.isActive), row.displayOrder)
  }

  function StoredRows(ids: seq<ServiceKey>, rows: seq<ProfileSave.ServiceRow>): (r: seq<StoredService>)
    requires |ids| == |rows|
    ensures |r| == |rows|
  {
    seq(|rows|, i requires 0 <= i < |rows| => FromSaved(ids[i], rows[i]))
  }

  /** Saving services and reading them back: the rows come back in input order (their
      display order is 0, 1, 2, ...), only the titled ones, each with its title, its texts
      defaulted to '' and shown publicly unless `showPublicly` was false. */
  lemma SavedServicesReadBack(profileId: string, inputs: seq<ProfileSave.ServiceInput>, ids: seq<ServiceKey>)
    requires |ids| == |ProfileSave.ServiceRows(profileId, inputs)|
    ensures var saved := ProfileSave.ServiceRows(profileId, inputs);
      var kept := Filter(inputs, ProfileSave.HasTitle);
      var views := ViewServices(Some(StoredRows(ids, saved)));
      && (forall i :: 0 <= i < |saved| ==> saved[i].displayOrder == i)
      && |views| == |kept|
      && forall i :: 0 <= i < |views| ==>
        && views[i].id == KeyString(ids[i])
        && views[i].title == kept[i].title
        && views[i].showPublicly == Some(kept[i].showPublicly != Some(JBool(false)))
        && views[i].description == StrOrEmpty(kept[i].description)
        && views[i].pricing == StrOrEmpty(kept[i].pricing)
        && views[i].category == StrOrEmpty(kept[i].category)
  {
  }

  // ---------------------------------------------------------------------------
  // The profile

  datatype ProfileView = ProfileView(
    email: Option<Json>, firstName: Option<Json>, lastName: Option<Json>,
    primaryEmail: Option<Json>, mobileNumber: Option<Json>, whatsappNumber: Option<Json>,
    jobTitle: Option<Json>, companyName: Option<Json>, companyWebsite: Option<Json>,
    companyAddress: Option<Json>, companyLogoUrl: Option<Json>, industry: Option<Json>,
    subDomain: Option<Json>, skills: Json, professionalSummary: Option<Json>,
    profilePhoto: Option<Json>, backgroundImage: Option<Json>,
    socialLinks: Option<map<Network, Json>>,
    displaySettings: Json, preferences: Json,
    customUrl: Option<Json>, profileUrl: Option<Json>, isFounderMember: Option<Json>,
    services: seq<ServiceView>,
    userId: Option<Json>, createdAt: Option<Json>, updatedAt: Option<Json>)

  /** `a || b` where the second choice is the preferred one's fallback: the result is truthy
      iff either is, and a truthy first choice always wins. */
  predicate Prefers(r: Option<Json>, first: Option<Json>, second: Option<Json>) {
    && (OptTruthy(r) <==> OptTruthy(first) || OptTruthy(second))
    && (OptTruthy(first) ==> r == first)
    && (!OptTruthy(first) ==> r == second)
  }

  function Transform(p: JsonObject, services: Option<seq<StoredService>>): (v: ProfileView)
    // columns with a fallback column
    ensures Prefers(v.primaryEmail, Get(p, "primary_email"), Get(p, "email"))
    ensures Prefers(v.mobileNumber, Get(p, "mobile_number"), Get(p, "phone_number"))
    ensures Prefers(v.companyName, Get(p, "company_name"), Get(p, "company"))
    ensures Prefers(v.profilePhoto, Get(p, "profile_photo_url"), Get(p, "avatar_url"))
    // columns with a default: always present and truthy
    ensures Truthy(v.skills) && (OptTruthy(Get(p, "skills")) ==> Some(v.skills) == Get(p, "skills"))
    ensures !OptTruthy(Get(p, "skills")) ==> v.skills == JArr([])
    ensures Truthy(v.displaySettings) && Truthy(v.preferences)
    ensures OptTruthy(Get(p, "display_settings")) ==> Some(v.displaySettings) == Get(p, "display_settings")
    ensures !OptTruthy(Get(p, "display_settings")) ==> v.displaySettings == JObj(map[])
    ensures OptTruthy(Get(p, "preferences")) ==> Some(v.preferences) == Get(p, "preferences")
    ensures !OptTruthy(Get(p, "preferences")) ==> v.preferences == JObj(map[])
    ensures v.socialLinks == ParseSocialLinks(Get(p, "social_links"))
    ensures v.services == ViewServices(services)
    // columns copied as they are
    ensures v.email == Get(p, "email") && v.firstName == Get(p, "first_name") && v.lastName == Get(p, "last_name")
    ensures v.customUrl == Get(p, "custom_url") && v.profileUrl == Get(p, "profile_url")
    ensures v.userId == Get(p, "user_id") && v.isFounderMember == Get(p, "is_founder_member")
    ensures v.whatsappNumber == Get(p, "whatsapp_number") && v.jobTitle == Get(p, "job_title")
    ensures v.companyWebsite == Get(p, "company_website") && v.companyAddress == Get(p, "company_address")
    ensures v.companyLogoUrl == Get(p, "company_logo_url") && v.industry == Get(p, "industry")
    ensures v.subDomain == Get(p, "sub_domain") && v.professionalSummary == Get(p, "professional_summary")
    ensures v.backgroundImage == Get(p, "background_image_url")
    ensures v.createdAt == Get(p, "created_at") && v.updatedAt == Get(p, "updated_at")
  {
    ProfileView(
      Get(p, "email"), Get(p, "first_name"), Get(p, "last_name"),
      Or(Get(p, "primary_email"), Get(p, "email")),
      Or(Get(p, "mobile_number"), Get(p, "phone_number")),
      Get(p, "whatsapp_number"),
      Get(p, "job_title"),
      Or(Get(p, "company_name"), Get(p, "company")),
      Get(p, "company_website"), Get(p, "company_address"), Get(p, "company_logo_url"),
      Get(p, "industry"), Get(p, "sub_domain"),
      Or(Get(p, "skills"), Some(JArr([]))).value,
      Get(p, "professional_summary"),
      Or(Get(p, "profile_photo_url"), Get(p, "avatar_url")),
      Get(p, "background_image_url"),
      ParseSocialLinks(Get(p, "social_links")),
      Or(Get(p, "display_settings"), Some(JObj(map[]))).value,
      Or(Get(p, "preferences"), Some(JObj(map[]))).value,
      Get(p, "custom_url"), Get(p, "profile_url"), Get(p, "is_founder_member"),
      ViewServices(services),
      Get(p, "user_id"), Get(p, "created_at"), Get(p, "updated_at"))
  }

  // ---------------------------------------------------------------------------
  // The handler

  /** The `.single()` lookup by e-mail: the row, or the error code PostgREST reported. */
  datatype Lookup = Row(profile: JsonObject) | DbError(code: string)

  datatype GetResponse =
    | MissingEmail            // 400 "Email is required"
    | NotFound                // success:false, profile:null, default status
    | FetchFailed             // 500 "Failed to fetch profile"
    | Found(profile: ProfileView)

  function HttpStatus(r: GetResponse): nat {
    match r
    case MissingEmail => 400
    case FetchFailed => 500
    case _ => 200
  }

  /** `lookup` stands for the profile query by e-mail and `servicesOf` for the services query
      by the profile's id. */
  function Handle(email: Option<string>, lookup: string -> Lookup,
                  servicesOf: Option<Json> -> Option<seq<StoredService>>): (r: GetResponse)
    ensures r == MissingEmail <==> !StrTruthy(email)
    ensures r == NotFound <==> StrTruthy(email) && lookup(email.value) == DbError("PGRST116")
    ensures r == FetchFailed <==> StrTruthy(email) && lookup(email.value).DbError? && lookup(email.value).code != "PGRST116"
    ensures r.Found? <==> StrTruthy(email) && lookup(email.value).Row?
    ensures r.Found? ==> r.profile == Transform(lookup(email.value).profile, servicesOf(Get(lookup(email.value).profile, "id")))
    ensures HttpStatus(r) == 200 <==> StrTruthy(email) && (lookup(email.value).Row? || lookup(email.value).code == "PGRST116")
  {
    if !StrTruthy(email) then MissingEmail
    else match lookup(email.value)
      case DbError(code) => if code == "PGRST116" then NotFound else FetchFailed
      case Row(p) => Found(Transform(p, servicesOf(Get(p, "id"))))
  }
}
