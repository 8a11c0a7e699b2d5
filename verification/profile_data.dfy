/** The records the profile resource works on: the stored profile document,
    its embedded experience and education entries, the request bodies and
    the responses the handlers send. */
module ProfileData {

  datatype Option<+T> = None | Some(value: T)

  /** A user's id as the handlers see it (`req.user.id`, `req.params.user_id`). */
  type UserId = string

  /** An embedded entry's id as `item.id` and `req.params.exp_id` give it. */
  type EntryId = string

  /** JavaScript truthiness of a string: only the empty string is falsy. */
  predicate Truthy(s: string) {
    s != ""
  }

  /** The stored value of an optional string key: present exactly when the
      request held a truthy value. */
  function IfTruthy(s: string): (r: Option<string>)
    ensures r.Some? <==> Truthy(s)
    ensures r.Some? ==> r.value == s
  {
    if Truthy(s) then Some(s) else None
  }

  /** The nested `social` object; a key that was never set is None. */
  datatype Social = Social(
    youtube: Option<string>,
    facebook: Option<string>,
    linkedin: Option<string>,
    instagram: Option<string>,
    twitter: Option<string>)

  /** `{}`: the social object with no link set. */
  const NoSocial := Social(None, None, None, None, None)

  /** One entry of the embedded experience list. Dates are opaque strings;
      "" stands for a key that is absent. */
  datatype Experience = Experience(
    id: EntryId,
    title: string,
    company: string,
    location: string,
    from: string,
    to: string,
    current: bool,
    description: Option<string>)

  /** One entry of the embedded education list; no handler of this resource
      touches it, so it is carried along unchanged. */
  datatype Education = Education(
    id: EntryId,
    school: string,
    degree: string,
    fieldofstudy: string,
    from: string,
    to: string,
    current: bool,
    description: Option<string>)

  /** A stored profile document. */
  datatype Profile = Profile(
    user: UserId,
    company: Option<string>,
    website: Option<string>,
    location: Option<string>,
    bio: Option<string>,
    status: Option<string>,
    githubusername: Option<string>,
    skills: Option<seq<string>>,
    social: Social,
    experience: seq<Experience>,
    education: seq<Education>)

  /** The body of `POST api/profile`; "" stands for an absent key. */
  datatype ProfileBody = ProfileBody(
    company: string,
    website: string,
    location: string,
    bio: string,
    status: string,
    githubusername: string,
    skills: string,
    youtube: string,
    facebook: string,
    twitter: string,
    instagram: string,
    linkedin: string)

  /** The body of the two experience requests; "" stands for an absent text
      key, and an absent `current` reads as `false`. */
  datatype ExperienceBody = ExperienceBody(
    title: string,
    company: string,
    location: string,
    from: string,
    to: string,
    current: bool,
    description: string)

  /** One entry of `validationResult(req).array()`: the checked key and the
      check's message. */
  datatype FieldError = FieldError(param: string, msg: string)

  /** A failure raised by the persistence layer while reading, with the
      `kind` it carries (Mongoose sets "ObjectId" on a failed id cast). */
  datatype Fault = Fault(kind: string)

  /** What a handler sends back. */
  datatype Response =
    | Ok(profile: Profile)                      // 200, the profile as JSON
    | ValidationFailed(errors: seq<FieldError>) // 400 { errors }
    | BadRequest(msg: string)                   // 400 { msg }
    | ServerError                               // 500, 'Server Error' as text or { msg: 'Server Error' }
    | UserDeleted                               // 200 { msg: 'User deleted' }

  /** The persisted profiles, keyed by the owning user's id. */
  type Store = map<UserId, Profile>

  /** Every stored profile belongs to the user it is stored under. */
  predicate Keyed(store: Store) {
    forall u :: u in store ==> store[u].user == u
  }
}
