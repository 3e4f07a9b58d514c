/** The profile preview page (`/profiles/preview`): how a database profile row becomes the
    preview's data, how each visibility flag is resolved, how the public username and URL
    are derived, which services and sections are shown, the WhatsApp link, and the
    local-storage fallback of the page's load step. */
module ProfilePreview {
  import opened Common
  import ProfileGet
  import ProfileSave

  // ---------------------------------------------------------------------------
  // Visibility flags

  datatype Flag =
    | ShowEmail | ShowSecondaryEmail | ShowMobile | ShowWhatsapp
    | ShowJobTitle | ShowCompanyName | ShowCompanyWebsite | ShowCompanyAddress | ShowIndustry | ShowSkills
    | ShowLinkedin | ShowInstagram | ShowFacebook | ShowTwitter | ShowBehance | ShowDribbble | ShowGithub | ShowYoutube

  /** The key a flag is stored under in `display_settings` and in `preferences`. */
  function FlagKey(f: Flag): string {
    match f
    case ShowEmail => "showEmailPublicly"
    case ShowSecondaryEmail => "showSecondaryEmailPublicly"
    case ShowMobile => "showMobilePublicly"
    case ShowWhatsapp => "showWhatsappPublicly"
    case ShowJobTitle => "showJobTitle"
    case ShowCompanyName => "showCompanyName"
    case ShowCompanyWebsite => "showCompanyWebsite"
    case ShowCompanyAddress => "showCompanyAddress"
    case ShowIndustry => "showIndustry"
    case ShowSkills => "showSkills"
    case ShowLinkedin => "showLinkedin"
    case ShowInstagram => "showInstagram"
    case ShowFacebook => "showFacebook"
    case ShowTwitter => "showTwitter"
    case ShowBehance => "showBehance"
    case ShowDribbble => "showDribbble"
    case ShowGithub => "showGithub"
    case ShowYoutube => "showYoutube"
  }

  function SocialFlag(n: ProfileGet.Network): (f: Flag)
    ensures !FlagDefault(f)
  {
    match n
    case LinkedIn => ShowLinkedin
    case Instagram => ShowInstagram
    case Facebook => ShowFacebook
    case Twitter => ShowTwitter
    case GitHub => ShowGithub
    case YouTube => ShowYoutube
    case Behance => ShowBehance
    case Dribbble => ShowDribbble
  }

  /** Contact and professional fields are shown unless switched off; WhatsApp and the social
      networks are hidden unless switched on. */
  predicate FlagDefault(f: Flag) {
    !(f == ShowWhatsapp || f.ShowLinkedin? || f.ShowInstagram? || f.ShowFacebook? || f.ShowTwitter?
      || f.ShowBehance? || f.ShowDribbble? || f.ShowGithub? || f.ShowYoutube?)
  }

  /** A value given with `??`: anything but null and undefined counts, `false` included. */
  predicate Given(v: Option<Json>) {
    v.Some? && v.value != JNull
  }

  /** `display_settings?.k ?? preferences?.k ?? default`. */
  function ResolveFlag(p: JsonObject, f: Flag): (r: Json)
    ensures var ds := GetPath(Get(p, "display_settings"), FlagKey(f));
      var pr := GetPath(Get(p, "preferences"), FlagKey(f));
      && (Given(ds) ==> r == ds.value)
      && (!Given(ds) && Given(pr) ==> r == pr.value)
      && (!Given(ds) && !Given(pr) ==> r == JBool(FlagDefault(f)))
  {
    Coalesce(GetPath(Get(p, "display_settings"), FlagKey(f)),
             Coalesce(GetPath(Get(p, "preferences"), FlagKey(f)), JBool(FlagDefault(f))))
  }

  /** The photo and background flags read `preferences` only. */
  function MediaFlag(p: JsonObject, key: string): (r: Json)
    ensures Given(GetPath(Get(p, "preferences"), key)) ==> r == GetPath(Get(p, "preferences"), key).value
    ensures !Given(GetPath(Get(p, "preferences"), key)) ==> r == JBool(true)
  {
    Coalesce(GetPath(Get(p, "preferences"), key), JBool(true))
  }

  // ---------------------------------------------------------------------------
  // The mapped profile

  datatype PreviewData = PreviewData(
    firstName: Json, lastName: Json, primaryEmail: Json, secondaryEmail: Json,
    mobileNumber: Json, whatsappNumber: Json, jobTitle: Json, companyName: Json,
    companyWebsite: Json, companyAddress: Json, companyLogo: Option<Json>,
    industry: Json, subDomain: Json, skills: Json, professionalSummary: Json,
    socialUrls: map<ProfileGet.Network, Json>,
    flags: map<Flag, Json>,
    profilePhoto: Option<Json>, backgroundImage: Option<Json>,
    showProfilePhoto: Json, showBackgroundImage: Json,
    services: Json)

  /** `column || ''`. */
  function Text(col: Option<Json>): (r: Json)
    ensures Truthy(r) <==> OptTruthy(col)
    ensures OptTruthy(col) ==> r == col.value
    ensures !OptTruthy(col) ==> r == JStr("")
  {
    Or(col, Some(JStr(""))).value
  }

  /** `column || []`. */
  function List(col: Option<Json>): (r: Json)
    ensures Truthy(r)
    ensures OptTruthy(col) ==> r == col.value
    ensures !OptTruthy(col) ==> r == JArr([])
  {
    Or(col, Some(JArr([]))).value
  }

  function MapProfile(p: JsonObject): (d: PreviewData)
    ensures forall f: Flag :: f in d.flags && d.flags[f] == ResolveFlag(p, f)
    ensures forall n: ProfileGet.Network ::
      n in d.socialUrls && d.socialUrls[n] == Text(GetPath(Get(p, "social_links"), ProfileGet.ShortKey(n)))
    ensures d.showProfilePhoto == MediaFlag(p, "showProfilePhoto")
    ensures d.showBackgroundImage == MediaFlag(p, "showBackgroundImage")
    ensures d.firstName == Text(Get(p, "first_name")) && d.lastName == Text(Get(p, "last_name"))
    ensures d.primaryEmail == Text(Get(p, "email")) && d.secondaryEmail == Text(Get(p, "alternate_email"))
    ensures d.mobileNumber == Text(Get(p, "phone_number")) && d.whatsappNumber == Text(Get(p, "whatsapp"))
    ensures d.skills == List(Get(p, "skills")) && d.services == List(Get(p, "services"))
    ensures d.jobTitle == Text(Get(p, "job_title")) && d.companyName == Text(Get(p, "company_name"))
    ensures d.companyWebsite == Text(Get(p, "company_website")) && d.companyAddress == Text(Get(p, "company_address"))
    ensures d.industry == Text(Get(p, "industry")) && d.subDomain == Text(Get(p, "sub_domain"))
    ensures d.professionalSummary == Text(Get(p, "professional_summary"))
    ensures d.companyLogo == Get(p, "company_logo_url") && d.profilePhoto == Get(p, "profile_photo_url")
    ensures d.backgroundImage == Get(p, "background_image_url")
  {
    PreviewData(
      Text(Get(p, "first_name")), Text(Get(p, "last_name")), Text(Get(p, "email")),
      Text(Get(p, "alternate_email")), Text(Get(p, "phone_number")), Text(Get(p, "whatsapp")),
      Text(Get(p, "job_title")), Text(Get(p, "company_name")), Text(Get(p, "company_website")),
      Text(Get(p, "company_address")), Get(p, "company_logo_url"),
      Text(Get(p, "industry")), Text(Get(p, "sub_domain")), List(Get(p, "skills")),
      Text(Get(p, "professional_summary")),
      map n: ProfileGet.Network | true :: Text(GetPath(Get(p, "social_links"), ProfileGet.ShortKey(n))),
      map f: Flag | true :: ResolveFlag(p, f),
      Get(p, "profile_photo_url"), Get(p, "background_image_url"),
      MediaFlag(p, "showProfilePhoto"), MediaFlag(p, "showBackgroundImage"),
      List(Get(p, "services")))
  }

  /** The photo and background flags do not depend on `display_settings`. */
  lemma MediaFlagsIgnoreDisplaySettings(p: JsonObject, ds: Json)
    ensures MapProfile(p["display_settings" := ds]).showProfilePhoto == MapProfile(p).showProfilePhoto
    ensures MapProfile(p["display_settings" := ds]).showBackgroundImage == MapProfile(p).showBackgroundImage
  {
    assert Get(p["display_settings" := ds], "preferences") == Get(p, "preferences");
  }

  /** A profile saved through the save handler, without display settings of its own, is
      previewed with exactly the flags the user submitted, and the same defaults. */
  lemma SavedPreferencesPreviewed(data: JsonObject, p: JsonObject, f: Flag)
    requires !Given(Get(p, "display_settings"))
    requires Get(p, "preferences") == Some(JObj(ProfileSave.Preferences(data)))
    ensures ResolveFlag(p, f) == ProfileSave.PreferenceValue(data, FlagKey(f))
    ensures ResolveFlag(p, f) == Coalesce(Get(data, FlagKey(f)), JBool(FlagDefault(f)))
  {
    FlagKeyListed(f);
    ProfileSave.PreferenceFlags(data, FlagKey(f));
  }

  /** The preview's flags are the save handler's flags, with the same defaults. */
  lemma FlagKeyListed(f: Flag)
    ensures FlagDefault(f) ==> FlagKey(f) in ProfileSave.TrueByDefault
    ensures !FlagDefault(f) ==> FlagKey(f) in ProfileSave.FalseByDefault
  {
    if FlagDefault(f) {
      ShownByDefaultListed(f);
    } else {
      HiddenByDefaultListed(f);
    }
  }

  lemma ShownByDefaultListed(f: Flag)
    requires FlagDefault(f)
    ensures FlagKey(f) in ProfileSave.TrueByDefault
  {
    var t := ProfileSave.TrueByDefault;
    if f == ShowEmail { assert FlagKey(f) == t[0]; }
    else if f == ShowSecondaryEmail { assert FlagKey(f) == t[1]; }
    else if f == ShowMobile { assert FlagKey(f) == t[2]; }
    else if f == ShowJobTitle { assert FlagKey(f) == t[3]; }
    else if f == ShowCompanyName { assert FlagKey(f) == t[4]; }
    else if f == ShowCompanyWebsite { assert FlagKey(f) == t[5]; }
    else if f == ShowCompanyAddress { assert FlagKey(f) == t[6]; }
    else if f == ShowIndustry { assert FlagKey(f) == t[7]; }
    else { assert f == ShowSkills && FlagKey(f) == t[8]; }
  }

  lemma HiddenByDefaultListed(f: Flag)
    requires !FlagDefault(f)
    ensures FlagKey(f) in ProfileSave.FalseByDefault
  {
    var u := ProfileSave.FalseByDefault;
    if f == ShowWhatsapp { assert FlagKey(f) == u[0]; }
    else if f == ShowLinkedin { assert FlagKey(f) == u[1]; }
    else if f == ShowInstagram { assert FlagKey(f) == u[2]; }
    else if f == ShowFacebook { assert FlagKey(f) == u[3]; }
    else if f == ShowTwitter { assert FlagKey(f) == u[4]; }
    else if f == ShowBehance { assert FlagKey(f) == u[5]; }
    else if f == ShowDribbble { assert FlagKey(f) == u[6]; }
    else if f == ShowGithub { assert FlagKey(f) == u[7]; }
    else { assert f == ShowYoutube && FlagKey(f) == u[8]; }
  }

  // ---------------------------------------------------------------------------
  // Sections

  /** The Social Profiles section: any of the eight social flags truthy. */
  predicate ShowsSocialSection(d: PreviewData)
    requires forall f: Flag :: f in d.flags
  {
    Truthy(d.flags[ShowLinkedin]) || Truthy(d.flags[ShowInstagram]) || Truthy(d.flags[ShowFacebook])
    || Truthy(d.flags[ShowTwitter]) || Truthy(d.flags[ShowGithub]) || Truthy(d.flags[ShowYoutube])
    || Truthy(d.flags[ShowBehance]) || Truthy(d.flags[ShowDribbble])
  }

  lemma SocialSectionIff(d: PreviewData)
    requires forall f: Flag :: f in d.flags
    ensures ShowsSocialSection(d) <==> exists n: ProfileGet.Network :: Truthy(d.flags[SocialFlag(n)])
  {
    if ShowsSocialSection(d) {
      if Truthy(d.flags[ShowLinkedin]) { assert SocialFlag(ProfileGet.LinkedIn) == ShowLinkedin; }
      else if Truthy(d.flags[ShowInstagram]) { assert SocialFlag(ProfileGet.Instagram) == ShowInstagram; }
      else if Truthy(d.flags[ShowFacebook]) { assert SocialFlag(ProfileGet.Facebook) == ShowFacebook; }
      else if Truthy(d.flags[ShowTwitter]) { assert SocialFlag(ProfileGet.Twitter) == ShowTwitter; }
      else if Truthy(d.flags[ShowGithub]) { assert SocialFlag(ProfileGet.GitHub) == ShowGithub; }
      else if Truthy(d.flags[ShowYoutube]) { assert SocialFlag(ProfileGet.YouTube) == ShowYoutube; }
      else if Truthy(d.flags[ShowBehance]) { assert SocialFlag(ProfileGet.Behance) == ShowBehance; }
      else { assert SocialFlag(ProfileGet.Dribbble) == ShowDribbble; }
    }
  }

  /** A profile with neither display settings nor preferences shows no social section. */
  lemma NoSettingsHidesSocial(p: JsonObject)
    requires !Given(Get(p, "display_settings")) && !Given(Get(p, "preferences"))
    ensures !ShowsSocialSection(MapProfile(p))
  {
    var d := MapProfile(p);
    SocialSectionIff(d);
    forall n: ProfileGet.Network ensures !Truthy(d.flags[SocialFlag(n)]) {
      assert d.flags[SocialFlag(n)] == JBool(false);
    }
  }

  /** The items of a list value; anything but an array has none. */
  function Items(j: Json): seq<Json> {
    if j.JArr? then j.items else []
  }

  /** `s.showPublicly !== false`. */
  predicate IsPublic(s: Json) {
    ProfileGet.Property(s, "showPublicly") != Some(JBool(false))
  }

  /** The services the section lists: those not explicitly hidden. */
  function PublicServices(services: Json): (r: seq<Json>)
    ensures |r| <= |Items(services)|
    ensures forall s :: s in r <==> s in Items(services) && IsPublic(s)
    ensures forall i :: 0 <= i < |r| ==> IsPublic(r[i])
    ensures (forall i :: 0 <= i < |Items(services)| ==> IsPublic(Items(services)[i])) ==> r == Items(services)
  {
    var r := Filter(Items(services), IsPublic);
    forall s ensures s in r <==> s in Items(services) && IsPublic(s) {
      FilterMembership(Items(services), IsPublic, s);
    }
    FilterAllKept(Items(services), IsPublic);
    if forall i :: 0 <= i < |Items(services)| ==> IsPublic(Items(services)[i]) then
      FilterKeepsAll(Items(services), IsPublic);
      r
    else r
  }

  /** Listed services keep their relative order: a public service sits between the public
      services before it and those after it. */
  lemma PublicServicesInOrder(before: seq<Json>, s: Json, after: seq<Json>)
    requires IsPublic(s)
    ensures PublicServices(JArr(before + [s] + after)) ==
      PublicServices(JArr(before)) + [s] + PublicServices(JArr(after))
  {
    FilterAppend(before + [s], after, IsPublic);
    FilterAppend(before, [s], IsPublic);
    assert Filter([s], IsPublic) == [s];
  }

  /** The Services section is rendered iff some service is not explicitly hidden. */
  lemma ServicesSectionIff(services: Json)
    ensures |PublicServices(services)| > 0 <==> exists s :: s in Items(services) && IsPublic(s)
  {
    if exists s :: s in Items(services) && IsPublic(s) {
      var s :| s in Items(services) && IsPublic(s);
      assert s in PublicServices(services);
    }
    if |PublicServices(services)| > 0 {
      assert PublicServices(services)[0] in PublicServices(services);
    }
  }

  /** `https://wa.me/` followed by the number with every non-digit removed. */
  function WhatsAppLink(number: string): (r: string)
    ensures |r| >= 14 && r[..14] == "https://wa.me/"
    ensures forall c :: c in r[14..] <==> c in number && IsDigit(c)
    ensures forall i :: 14 <= i < |r| ==> IsDigit(r[i])
    ensures r[14..] == Filter(number, IsDigit)
  {
    var digits := Filter(number, IsDigit);
    FilterAllKept(number, IsDigit);
    forall c ensures c in digits <==> c in number && IsDigit(c) {
      FilterMembership(number, IsDigit, c);
    }
    var r := "https://wa.me/" + digits;
    assert r[14..] == digits;
    r
  }

  // ---------------------------------------------------------------------------
  // Username and public URL

  /** A text column as a string; null, undefined and non-string values count as absent. */
  function StrColumn(p: JsonObject, key: string): (r: Option<string>)
    ensures r.Some? <==> key in p && p[key].JStr?
    ensures r.Some? ==> r.value == p[key].s
  {
    if key in p && p[key].JStr? then Some(p[key].s) else None
  }

  /** The username the page derives from a database row. */
  function UsernameOf(customUrl: Option<string>, firstName: Option<string>, email: Option<string>): (u: string)
    ensures StrTruthy(customUrl) ==> u == customUrl.value
    ensures !StrTruthy(customUrl) && StrTruthy(firstName) ==>
      u == NameSlug(firstName.value) && u != "" && NoSpace(u) && NoUpper(u)
    ensures !StrTruthy(customUrl) && !StrTruthy(firstName) && StrTruthy(email) ==>
      u == TakeUntil(email.value, '@') && '@' !in u && u <= email.value
    ensures !StrTruthy(customUrl) && !StrTruthy(firstName) && !StrTruthy(email) ==> u == "your-profile"
  {
    if StrTruthy(customUrl) then customUrl.value
    else if StrTruthy(firstName) then NameSlug(firstName.value)
    else if StrTruthy(email) then TakeUntil(email.value, '@')
    else "your-profile"
  }

  /** The `let username` chain of the load step. */
  method Username(row: JsonObject) returns (username: string)
    ensures username == UsernameOf(StrColumn(row, "custom_url"), StrColumn(row, "first_name"), StrColumn(row, "email"))
  {
    username := "your-profile";
    var customUrl, firstName, email := StrColumn(row, "custom_url"), StrColumn(row, "first_name"), StrColumn(row, "email");
    if StrTruthy(customUrl) {
      username := customUrl.value;
    } else if StrTruthy(firstName) {
      username := NameSlug(firstName.value);
    } else if StrTruthy(email) {
      username := Split(email.value, '@')[0];
      SplitHead(email.value, '@');
    }
  }

  // ---------------------------------------------------------------------------
  // The load step

  /** The profile API's answer: a failed status, a thrown error, or the parsed body. */
  datatype ApiResult = NotOk | Threw | Ok(body: Json)

  /** What `localStorage.getItem('userProfiles')` held. */
  datatype StoredList = Missing | Unparseable | Parsed(value: Json)

  /** Where the shown profile comes from. */
  datatype Source = Database(row: JsonObject) | Storage

  /** `data.profiles && data.profiles.length > 0 ? data.profiles[0]`: the first entry of a
      list, or the first character of a string; nothing for any other value. */
  function FirstProfile(body: Json): (r: Option<Json>)
    ensures var ps := GetPath(Some(body), "profiles");
      && (ps.Some? && ps.value.JArr? && |ps.value.items| > 0 ==> r == Some(ps.value.items[0]))
      && (ps.Some? && ps.value.JStr? && |ps.value.s| > 0 ==> r == Some(JStr([ps.value.s[0]])))
      && (r.Some? <==> ps.Some? && ((ps.value.JArr? && |ps.value.items| > 0) || (ps.value.JStr? && |ps.value.s| > 0)))
  {
    match GetPath(Some(body), "profiles")
    case Some(JArr(items)) => if |items| > 0 then Some(items[0]) else None
    case Some(JStr(t)) => if |t| > 0 then Some(JStr([t[0]])) else None
    case _ => None
  }

  /** The first of the API's profiles is used when there is one; a null entry throws and
      falls back to local storage like every other failure, and any other value that is not
      an object (a one-character string among them) reads as an object without columns. */
  function SourceOf(api: ApiResult): (s: Source)
    ensures s.Database? <==> api.Ok? && FirstProfile(api.body).Some? && FirstProfile(api.body).value != JNull
    ensures s.Database? && FirstProfile(api.body).value.JObj? ==> s.row == FirstProfile(api.body).value.fields
    ensures s.Database? && !FirstProfile(api.body).value.JObj? ==> s.row == map[]
  {
    if !api.Ok? then Storage
    else match FirstProfile(api.body)
      case None => Storage
      case Some(first) =>
        if first == JNull then Storage
        else if first.JObj? then Database(first.fields)
        else Database(map[])
  }

  /** A body whose `profiles` is a non-empty string is previewed as a profile with no columns:
      every text empty and every flag at its default. */
  lemma StringProfilesGiveEmptyRow(t: string)
    requires t != ""
    ensures SourceOf(Ok(JObj(map["profiles" := JStr(t)]))) == Database(map[])
  {
    assert GetPath(Some(JObj(map["profiles" := JStr(t)])), "profiles") == Some(JStr(t));
  }

  /** `profiles && profiles.length > 0 ? profiles[profiles.length - 1]`: the last entry of a
      stored list, or the last character of a stored string. */
  function LastStored(s: StoredList): (r: Option<Json>)
    ensures s.Parsed? && s.value.JArr? && |s.value.items| > 0 ==> r == Some(s.value.items[|s.value.items| - 1])
    ensures s.Parsed? && s.value.JStr? && |s.value.s| > 0 ==> r == Some(JStr([s.value.s[|s.value.s| - 1]]))
    ensures r.Some? <==> s.Parsed? && ((s.value.JArr? && |s.value.items| > 0) || (s.value.JStr? && |s.value.s| > 0))
    ensures s.Missing? || s.Unparseable? ==> r.None?
  {
    if !s.Parsed? then None
    else match s.value
      case JArr(items) => if |items| > 0 then Some(items[|items| - 1]) else None
      case JStr(t) => if |t| > 0 then Some(JStr([t[|t| - 1]])) else None
      case _ => None
  }

  datatype Shown = FromDatabase(data: PreviewData) | FromStorage(stored: Json)

  function ShownAfterLoad(api: ApiResult, stored: StoredList): (r: Option<Shown>)
    ensures SourceOf(api).Database? ==> r == Some(FromDatabase(MapProfile(SourceOf(api).row)))
    ensures SourceOf(api).Storage? && LastStored(stored).Some? ==> r == Some(FromStorage(LastStored(stored).value))
    ensures SourceOf(api).Storage? && LastStored(stored).None? ==> r.None?
  {
    match SourceOf(api)
    case Database(row) => Some(FromDatabase(MapProfile(row)))
    case Storage => if LastStored(stored).Some? then Some(FromStorage(LastStored(stored).value)) else None
  }

  /** When the API gives nothing usable, the profile shown is the one saved last, whatever
      was saved before it. */
  lemma FallbackShowsLastSaved(api: ApiResult, earlier: seq<Json>, last: Json)
    requires SourceOf(api).Storage?
    ensures ShownAfterLoad(api, Parsed(JArr(earlier + [last]))) == Some(FromStorage(last))
  {
    assert (earlier + [last])[|earlier + [last]| - 1] == last;
  }

  /** A profile row from the API wins over anything in local storage. */
  lemma DatabaseRowWins(row: JsonObject, rest: seq<Json>, stored: StoredList)
    ensures var api := Ok(JObj(map["profiles" := JArr([JObj(row)] + rest)]));
      ShownAfterLoad(api, stored) == Some(FromDatabase(MapProfile(row)))
  {
    var api := Ok(JObj(map["profiles" := JArr([JObj(row)] + rest)]));
    assert GetPath(Some(api.body), "profiles") == Some(JArr([JObj(row)] + rest));
  }

  function RowUrl(origin: string, row: JsonObject): string {
    origin + "/" + UsernameOf(StrColumn(row, "custom_url"), StrColumn(row, "first_name"), StrColumn(row, "email"))
  }

  /** The URL as the page computes it: the check meant to keep a claimed username reads the
      URL state captured when the page mounted, which is always '', so a database profile
      always replaces the claimed username. */
  function UrlAfterLoadAsWritten(origin: string, claimed: Option<string>, api: ApiResult): (url: string)
    ensures SourceOf(api).Database? ==> url == RowUrl(origin, SourceOf(api).row)
    ensures SourceOf(api).Storage? && StrTruthy(claimed) ==> url == origin + "/" + claimed.value
    ensures url == "" <==> SourceOf(api).Storage? && !StrTruthy(claimed)
  {
    if SourceOf(api).Database? then RowUrl(origin, SourceOf(api).row)
    else if StrTruthy(claimed) then origin + "/" + claimed.value
    else ""
  }

  /** The URL as the comment above the check describes it: set from the database only when
      no username was claimed. */
  function UrlAfterLoad(origin: string, claimed: Option<string>, api: ApiResult): (url: string)
    ensures StrTruthy(claimed) ==> url == origin + "/" + claimed.value
    ensures !StrTruthy(claimed) && SourceOf(api).Database? ==> url == RowUrl(origin, SourceOf(api).row)
    ensures !StrTruthy(claimed) && SourceOf(api).Storage? ==> url == ""
  {
    if StrTruthy(claimed) then origin + "/" + claimed.value
    else if SourceOf(api).Database? then RowUrl(origin, SourceOf(api).row)
    else ""
  }

  /** The discrepancy: a claimed username and a database profile with a custom URL of its own. */
  lemma ClaimedUsernameOverwritten()
    ensures var api := Ok(JObj(map["profiles" := JArr([JObj(map["custom_url" := JStr("bob")])])]));
      && UrlAfterLoadAsWritten("https://linkist.ai", Some("alice"), api) == "https://linkist.ai/bob"
      && UrlAfterLoad("https://linkist.ai", Some("alice"), api) == "https://linkist.ai/alice"
  {
    var row := map["custom_url" := JStr("bob")];
    var api := Ok(JObj(map["profiles" := JArr([JObj(row)])]));
    assert GetPath(Some(api.body), "profiles") == Some(JArr([JObj(row)]));
    assert SourceOf(api) == Database(row);
    assert StrColumn(row, "custom_url") == Some("bob");
  }

  /** Without a claimed username the two agree. */
  lemma UrlAgreesWithoutClaim(origin: string, claimed: Option<string>, api: ApiResult)
    requires !StrTruthy(claimed)
    ensures UrlAfterLoad(origin, claimed, api) == UrlAfterLoadAsWritten(origin, claimed, api)
  {
  }

  class PreviewPage {
    var profile: Option<Shown>
    var customUrl: string

    constructor ()
      ensures profile == None && customUrl == ""
    {
      profile, customUrl := None, "";
    }

    /** The load step, run once when the page mounts. */
    method Load(origin: string, claimed: Option<string>, api: ApiResult, stored: StoredList)
      requires profile == None && customUrl == ""
      modifies this
      ensures profile == ShownAfterLoad(api, stored)
      ensures customUrl == UrlAfterLoad(origin, claimed, api)
    {
      if StrTruthy(claimed) {
        customUrl := origin + "/" + claimed.value;
      }
      var source := SourceOf(api);
      if source.Database? {
        profile := Some(FromDatabase(MapProfile(source.row)));
        if customUrl == "" {
          var username := Username(source.row);
          customUrl := origin + "/" + username;
        }
      } else {
        var last := LastStored(stored);
        if last.Some? {
          profile := Some(FromStorage(last.value));
        }
      }
    }
  }
}
