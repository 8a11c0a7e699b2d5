/** The edit-profile form of the client: the form state it prefills from the
    loaded profile, the change handler of its inputs, and the body the form
    holds when it is submitted to `POST api/profile`. */
module EditProfile {
  import opened ProfileData
  import opened JsStrings
  import opened ProfileFields
  import Validation

  /** The twelve keys of the form state, which are also the `name`s of its
      inputs. */
  datatype Key =
    | Company | Website | Location | Status | Skills | Bio | GithubUsername
    | Youtube | Twitter | Facebook | Linkedin | Instagram

  /** The keys holding a social link. */
  predicate IsSocial(k: Key) {
    k.Youtube? || k.Twitter? || k.Facebook? || k.Linkedin? || k.Instagram?
  }

  /** The form state: one text per key. */
  datatype Form = Form(
    company: string,
    website: string,
    location: string,
    status: string,
    skills: string,
    bio: string,
    githubusername: string,
    youtube: string,
    twitter: string,
    facebook: string,
    linkedin: string,
    instagram: string)

  /** `formData[k]`. */
  function Get(form: Form, k: Key): string {
    match k
    case Company => form.company
    case Website => form.website
    case Location => form.location
    case Status => form.status
    case Skills => form.skills
    case Bio => form.bio
    case GithubUsername => form.githubusername
    case Youtube => form.youtube
    case Twitter => form.twitter
    case Facebook => form.facebook
    case Linkedin => form.linkedin
    case Instagram => form.instagram
  }

  /** The state before the profile is loaded: every key holds ''. */
  const InitialForm := Form("", "", "", "", "", "", "", "", "", "", "", "")

  /** A top-level text key of the profile as the client receives it. The
      links live under `social`, so `profile.youtube` and the other social
      names are undefined at the top level. `skills` is a list, not a text,
      and is prefilled by `PrefillSkills` instead, so it has no text here. */
  function TopLevelText(p: Profile, k: Key): (r: Option<string>)
    ensures IsSocial(k) ==> r == None
  {
    match k
    case Company => p.company
    case Website => p.website
    case Location => p.location
    case Status => p.status
    case Bio => p.bio
    case GithubUsername => p.githubusername
    case Skills => None
    case Youtube => None
    case Twitter => None
    case Facebook => None
    case Linkedin => None
    case Instagram => None
  }

  /** A link of the profile's `social` object, by its form key. */
  function SocialText(p: Profile, k: Key): Option<string> {
    match k
    case Youtube => p.social.youtube
    case Twitter => p.social.twitter
    case Facebook => p.social.facebook
    case Linkedin => p.social.linkedin
    case Instagram => p.social.instagram
    case _ => None
  }

  /** `loading || !value ? '' : value`: the value when loaded and truthy,
      '' otherwise. */
  function PrefillText(loading: bool, v: Option<string>): (r: string)
    ensures r == "" <==> loading || v.None? || v.value == ""
    ensures !loading && v.Some? ==> r == v.value
  {
    if loading || v.None? || !Truthy(v.value) then "" else v.value
  }

  /** `loading || !profile.skills ? '' : profile.skills.join(',')`; a list
      is always truthy. */
  function PrefillSkills(loading: bool, skills: Option<seq<string>>): (r: string)
    ensures !loading && skills.Some? ==> r == Join(skills.value, ',')
    ensures loading || skills.None? ==> r == ""
  {
    if loading || skills.None? then "" else Join(skills.value, ',')
  }

  /** The state the effect of lines 29-48 sets: None when `profile` is null
      and not loading (reading `profile.company` throws); otherwise the text
      keys from the top level of the profile and the skills joined with ','. */
  function Prefill(loading: bool, profile: Option<Profile>): (r: Option<Form>)
    ensures r.None? <==> !loading && profile.None?
    ensures r.Some? && loading ==> r.value == InitialForm
    ensures r.Some? ==> forall k :: IsSocial(k) ==> Get(r.value, k) == ""
    ensures r.Some? && !loading ==>
              && Get(r.value, Skills) == PrefillSkills(false, profile.value.skills)
              && forall k: Key :: !k.Skills? ==> Get(r.value, k) == PrefillText(false, TopLevelText(profile.value, k))
  {
    if !loading && profile.None? then None
    else if loading then Some(InitialForm)
    else
      var p := profile.value;
      Some(Form(PrefillText(false, p.company), PrefillText(false, p.website),
                PrefillText(false, p.location), PrefillText(false, p.status),
                PrefillSkills(false, p.skills), PrefillText(false, p.bio),
                PrefillText(false, p.githubusername), PrefillText(false, TopLevelText(p, Youtube)),
                PrefillText(false, TopLevelText(p, Twitter)), PrefillText(false, TopLevelText(p, Facebook)),
                PrefillText(false, TopLevelText(p, Linkedin)), PrefillText(false, TopLevelText(p, Instagram))))
  }

  /** The prefill reading the links from `profile.social`, as the form
      evidently means. */
  function PrefillIntended(loading: bool, profile: Option<Profile>): (r: Option<Form>)
    ensures r.None? <==> !loading && profile.None?
    ensures r.Some? && loading ==> r.value == InitialForm
    ensures r.Some? && !loading ==>
              && Get(r.value, Skills) == PrefillSkills(false, profile.value.skills)
              && (forall k :: IsSocial(k) ==> Get(r.value, k) == PrefillText(false, SocialText(profile.value, k)))
              && (forall k: Key :: !IsSocial(k) && !k.Skills? ==>
                    Get(r.value, k) == PrefillText(false, TopLevelText(profile.value, k)))
  {
    if !loading && profile.None? then None
    else if loading then Some(InitialForm)
    else
      var p := profile.value;
      Some(Form(PrefillText(false, p.company), PrefillText(false, p.website),
                PrefillText(false, p.location), PrefillText(false, p.status),
                PrefillSkills(false, p.skills), PrefillText(false, p.bio),
                PrefillText(false, p.githubusername), PrefillText(false, p.social.youtube),
                PrefillText(false, p.social.twitter), PrefillText(false, p.social.facebook),
                PrefillText(false, p.social.linkedin), PrefillText(false, p.social.instagram)))
  }

  /** `formDataHandler`: `{ ...formData, [name]: value }`. Only the named key
      changes. */
  function HandleChange(form: Form, name: Key, value: string): (r: Form)
    ensures Get(r, name) == value
    ensures forall k :: k != name ==> Get(r, k) == Get(form, k)
  {
    match name
    case Company => form.(company := value)
    case Website => form.(website := value)
    case Location => form.(location := value)
    case Status => form.(status := value)
    case Skills => form.(skills := value)
    case Bio => form.(bio := value)
    case GithubUsername => form.(githubusername := value)
    case Youtube => form.(youtube := value)
    case Twitter => form.(twitter := value)
    case Facebook => form.(facebook := value)
    case Linkedin => form.(linkedin := value)
    case Instagram => form.(instagram := value)
  }

  /** Two changes of different inputs commute. */
  lemma ChangesCommute(form: Form, a: Key, x: string, b: Key, y: string)
    requires a != b
    ensures HandleChange(HandleChange(form, a, x), b, y) == HandleChange(HandleChange(form, b, y), a, x)
  {
    var l := HandleChange(HandleChange(form, a, x), b, y);
    var r := HandleChange(HandleChange(form, b, y), a, x);
    FormExtensional(l, r);
  }

  /** Two forms that agree on every key are equal. */
  lemma FormExtensional(f: Form, g: Form)
    requires forall k :: Get(f, k) == Get(g, k)
    ensures f == g
  {
    assert Get(f, Company) == Get(g, Company) && Get(f, Website) == Get(g, Website);
    assert Get(f, Location) == Get(g, Location) && Get(f, Status) == Get(g, Status);
    assert Get(f, Skills) == Get(g, Skills) && Get(f, Bio) == Get(g, Bio);
    assert Get(f, GithubUsername) == Get(g, GithubUsername) && Get(f, Youtube) == Get(g, Youtube);
    assert Get(f, Twitter) == Get(g, Twitter) && Get(f, Facebook) == Get(g, Facebook);
    assert Get(f, Linkedin) == Get(g, Linkedin) && Get(f, Instagram) == Get(g, Instagram);
  }

  /** The body `createProfile(formData, …)` posts: each key of the form
      under the same name. */
  function SubmittedBody(form: Form): (r: ProfileBody)
    ensures Validation.ValidateProfile(r) == [] <==> Get(form, Status) != "" && Get(form, Skills) != ""
  {
    ProfileBody(form.company, form.website, form.location, form.bio, form.status,
                form.githubusername, form.skills, form.youtube, form.facebook,
                form.twitter, form.instagram, form.linkedin)
  }

  /** The prefilled skills string parses back to the stored skills whenever
      no skill has a comma or surrounding whitespace. */
  lemma SkillsRoundTrip(xs: seq<string>)
    requires |xs| >= 1
    requires forall i :: 0 <= i < |xs| ==> ',' !in xs[i] && IsTrimmed(xs[i])
    ensures NormaliseSkills(PrefillSkills(false, Some(xs))) == xs
  {
    NormaliseJoin(xs);
  }

  /** Stored skills `[""]` (from a skills input of only whitespace) prefill
      as '', so resubmitting the edit form is refused: skills is required. */
  lemma SingleEmptySkillBlocksResubmit(p: Profile)
    requires p.skills == Some([""])
    ensures FieldError("skills", "Skills is required") in
            Validation.ValidateProfile(SubmittedBody(Prefill(false, Some(p)).value))
  {
    assert Join([""], ',') == "";
  }

  /** A prefilled text key sent back unchanged leaves the stored value as it
      was after `$set`, when the stored value is absent or non-empty. */
  lemma ResubmittedTextKept(stored: Option<string>, built: Option<string>)
    requires CopiedIfTruthy(built, PrefillText(false, stored))
    ensures Override(built, stored) == stored
  {
  }

  /** Well-formed skills other than `[""]` prefill to a non-empty string
      that normalises back to them. */
  lemma ResubmittedSkillsKept(xs: seq<string>)
    requires NormalSkills(xs) && xs != [""]
    ensures Truthy(PrefillSkills(false, Some(xs)))
    ensures NormaliseSkills(PrefillSkills(false, Some(xs))) == xs
  {
    if Join(xs, ',') == "" {
      JoinIsEmptyOnlyFor(xs, ',');
    }
    NormaliseJoin(xs);
  }

  /** Resubmitting the prefilled edit form unchanged: it passes validation,
      and the `$set` it makes leaves every field as it was except `social`,
      whose stored links are all wiped because they never reach the form. */
  lemma ResubmitWipesSocialLinks(p: Profile, pf: Fields)
    requires WellFormed(p) && p.skills.value != [""]
    requires BuiltFrom(pf, p.user, SubmittedBody(Prefill(false, Some(p)).value))
    ensures Validation.ValidateProfile(SubmittedBody(Prefill(false, Some(p)).value)) == []
    ensures ApplySet(p, pf) == p.(social := NoSocial)
  {
    ResubmittedSkillsKept(p.skills.value);
    ResubmittedTextKept(p.company, pf.company);
    ResubmittedTextKept(p.website, pf.website);
    ResubmittedTextKept(p.location, pf.location);
    ResubmittedTextKept(p.bio, pf.bio);
    ResubmittedTextKept(p.status, pf.status);
    ResubmittedTextKept(p.githubusername, pf.githubusername);
  }

  /** With the intended prefill, resubmitting the edit form unchanged leaves
      the stored profile exactly as it was, links included. */
  lemma IntendedResubmitKeepsProfile(p: Profile, pf: Fields)
    requires WellFormed(p) && p.skills.value != [""]
    requires BuiltFrom(pf, p.user, SubmittedBody(PrefillIntended(false, Some(p)).value))
    ensures Validation.ValidateProfile(SubmittedBody(PrefillIntended(false, Some(p)).value)) == []
    ensures ApplySet(p, pf) == p
  {
    ResubmittedSkillsKept(p.skills.value);
    ResubmittedTextKept(p.company, pf.company);
    ResubmittedTextKept(p.website, pf.website);
    ResubmittedTextKept(p.location, pf.location);
    ResubmittedTextKept(p.bio, pf.bio);
    ResubmittedTextKept(p.status, pf.status);
    ResubmittedTextKept(p.githubusername, pf.githubusername);
    ResubmittedTextKept(p.social.youtube, pf.social.youtube);
    ResubmittedTextKept(p.social.facebook, pf.social.facebook);
    ResubmittedTextKept(p.social.linkedin, pf.social.linkedin);
    ResubmittedTextKept(p.social.instagram, pf.social.instagram);
    ResubmittedTextKept(p.social.twitter, pf.social.twitter);
  }
}
