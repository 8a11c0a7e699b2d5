/** The handlers of the profile resource over an abstract store: create or
    update, get by user id, delete the account, and add, delete or update an
    experience entry. The upsert and the experience handlers are methods
    that take the store and return the response and the store afterwards;
    get by user id is a function returning only the response, and the
    account delete a function returning the response, the store and the set
    of user ids afterwards. */
module ProfileRoutes {
  import opened ProfileData
  import opened Validation
  import opened ProfileFields
  import opened Experiences

  /** The shape of a store that only this resource has written: each profile
      under its own user, well-formed, with unique experience ids. */
  predicate ValidStore(store: Store) {
    && Keyed(store)
    && forall u :: u in store ==> WellFormed(store[u]) && UniqueIds(store[u].experience)
  }

  /** Giving a stored profile a new experience list with unique ids keeps
      the store valid. */
  lemma NewListKeepsValid(store: Store, user: UserId, xs: seq<Experience>)
    requires ValidStore(store) && user in store && UniqueIds(xs)
    ensures ValidStore(store[user := store[user].(experience := xs)])
  {
    var p := store[user].(experience := xs);
    assert WellFormed(p) && p.user == user;
  }

  /** A keyed store holds exactly one profile for each user it has one for. */
  lemma OneProfilePerUser(store: Store, user: UserId)
    requires Keyed(store) && user in store
    ensures (set v | v in store && store[v].user == user) == {user}
  {
  }

  /** `POST api/profile`. A body that fails validation yields 400 with every
      failed check and leaves the store alone; otherwise the store afterwards
      has the user's profile updated with `$set` (or created) from the built
      fields, every other profile unchanged, and the response is that profile. */
  method CreateOrUpdateProfile(store: Store, user: UserId, body: ProfileBody)
    returns (res: Response, store': Store)
    ensures ValidateProfile(body) != [] ==>
              res == ValidationFailed(ValidateProfile(body)) && store' == store
    ensures ValidateProfile(body) == [] ==>
              exists pf :: BuiltFrom(pf, user, body) &&
                store' == store[user := if user in store then ApplySet(store[user], pf) else NewProfile(pf)]
    ensures ValidateProfile(body) == [] ==> user in store' && res == Ok(store'[user])
    ensures ValidStore(store) ==> ValidStore(store')
  {
    var errors := ValidateProfile(body);
    if errors != [] {
      return ValidationFailed(errors), store;
    }
    var pf := BuildProfileFields(user, body);
    var p: Profile;
    if user in store {
      p := ApplySet(store[user], pf);
      if ValidStore(store) {
        ValidBodyKeepsWellFormed(store[user], user, pf, body);
      }
    } else {
      p := NewProfile(pf);
      ValidBodyMakesWellFormed(user, pf, body);
    }
    store' := store[user := p];
    res := Ok(p);
  }

  /** Whether the catch block of lines 159-166 answers 400: the condition is
      the value of the assignment `err.kind = 'ObjectId'`, which is truthy. */
  function CatchTestAsWritten(err: Fault): (answers400: bool)
    ensures answers400
  {
    Truthy("ObjectId")
  }

  /** `GET api/profile/user/:user_id` as written; `fault` is the failure the
      read raises, if any. */
  function GetProfileByUserId(store: Store, user: UserId, fault: Option<Fault>): (res: Response)
    ensures res.Ok? <==> fault.None? && user in store
    ensures res.Ok? ==> user in store && res.profile == store[user]
    ensures !res.Ok? ==> res == BadRequest("Profile not found")
  {
    if fault.Some? then
      if CatchTestAsWritten(fault.value) then BadRequest("Profile not found") else ServerError
    else if user !in store then BadRequest("Profile not found")
    else Ok(store[user])
  }

  /** As written, a failure that is not an id cast (here a timeout) is still
      reported as a missing profile: the 500 answer cannot happen. */
  lemma StorageFailureReportedAsNotFound(store: Store, user: UserId)
    ensures GetProfileByUserId(store, user, Some(Fault("Timeout"))) == BadRequest("Profile not found")
    ensures forall f :: GetProfileByUserId(store, user, f) != ServerError
  {
  }

  /** `GET api/profile/user/:user_id` with the comparison line 161 means. */
  function GetProfileByUserIdIntended(store: Store, user: UserId, fault: Option<Fault>): (res: Response)
    ensures fault.None? ==> res == GetProfileByUserId(store, user, fault)
    ensures fault.Some? ==> (res == ServerError <==> fault.value.kind != "ObjectId")
    ensures fault.Some? && fault.value.kind == "ObjectId" ==> res == BadRequest("Profile not found")
  {
    if fault.Some? then
      if fault.value.kind == "ObjectId" then BadRequest("Profile not found") else ServerError
    else if user !in store then BadRequest("Profile not found")
    else Ok(store[user])
  }

  /** `DELETE api/profile`: the user's profile and the user record go; the
      response confirms it. `users` is the set of stored user ids. */
  function DeleteAccount(store: Store, users: set<UserId>, user: UserId): (r: (Response, Store, set<UserId>))
    ensures r.0 == UserDeleted
    ensures user !in r.1 && user !in r.2
    ensures forall u :: u != user ==> (u in r.1 <==> u in store) && (u in r.2 <==> u in users)
    ensures forall u :: u in r.1 ==> r.1[u] == store[u]
  {
    (UserDeleted, store - {user}, users - {user})
  }

  /** After the account is deleted, reading its profile answers 400. */
  lemma DeletedProfileNotFound(store: Store, users: set<UserId>, user: UserId)
    ensures GetProfileByUserId(DeleteAccount(store, users, user).1, user, None) == BadRequest("Profile not found")
  {
  }

  /** `PUT api/profile/experience`. A body failing validation yields 400 and
      no write; with no profile the dereference at line 223 throws and the
      answer is 500 with no write; otherwise the new entry is put first in the
      user's list and nothing else changes. `newId` is the id the document
      layer gives the new entry, fresh in that list. */
  method AddExperience(store: Store, user: UserId, body: ExperienceBody, newId: EntryId)
    returns (res: Response, store': Store)
    requires user in store ==> newId !in Ids(store[user].experience)
    ensures ValidateExperience(body) != [] ==>
              res == ValidationFailed(ValidateExperience(body)) && store' == store
    ensures ValidateExperience(body) == [] && user !in store ==> res == ServerError && store' == store
    ensures ValidateExperience(body) == [] && user in store ==>
              && store' == store[user := store[user].(experience := [EntryFromBody(body, newId)] + store[user].experience)]
              && res == Ok(store'[user])
    ensures ValidStore(store) ==> ValidStore(store')
  {
    var errors := ValidateExperience(body);
    if errors != [] {
      return ValidationFailed(errors), store;
    }
    if user !in store {
      return ServerError, store;
    }
    var profile := new ProfileDocument(store[user]);
    profile.Unshift(EntryFromBody(body, newId));
    var saved := profile.Snapshot();
    PrependKeepsUnique(store[user].experience, EntryFromBody(body, newId));
    store' := store[user := saved];
    res := Ok(saved);
  }

  /** Two valid additions, A then B, to a stored profile: the list starts
      with B, then A, then the entries it held before. */
  method NewestFirst(store: Store, user: UserId, bodyA: ExperienceBody, idA: EntryId,
                     bodyB: ExperienceBody, idB: EntryId)
    returns (store': Store)
    requires user in store
    requires ValidateExperience(bodyA) == [] && ValidateExperience(bodyB) == []
    requires idA != idB && idA !in Ids(store[user].experience) && idB !in Ids(store[user].experience)
    ensures user in store'
    ensures store'[user].experience ==
              [EntryFromBody(bodyB, idB), EntryFromBody(bodyA, idA)] + store[user].experience
  {
    var _, afterA := AddExperience(store, user, bodyA, idA);
    assert Ids(afterA[user].experience) == [idA] + Ids(store[user].experience);
    var _, afterB := AddExperience(afterA, user, bodyB, idB);
    store' := afterB;
  }

  /** `DELETE api/profile/experience/:exp_id` as written: with no profile the
      answer is 500 and nothing is written; otherwise the list becomes what
      `splice(indexOf(id), 1)` leaves. */
  method DeleteExperience(store: Store, user: UserId, id: EntryId)
    returns (res: Response, store': Store)
    ensures user !in store ==> res == ServerError && store' == store
    ensures user in store ==>
              && store' == store[user := store[user].(experience := RemoveByIdAsWritten(store[user].experience, id))]
              && res == Ok(store'[user])
    ensures ValidStore(store) ==> ValidStore(store')
  {
    if user !in store {
      return ServerError, store;
    }
    var profile := new ProfileDocument(store[user]);
    var removeIndex := IndexOf(Ids(profile.experience), id);
    profile.SpliceOut(removeIndex, 1);
    var saved := profile.Snapshot();
    if ValidStore(store) {
      RemoveAsWrittenKeepsUnique(store[user].experience, id);
    }
    store' := store[user := saved];
    res := Ok(saved);
  }

  /** The delete handler with the guard the code evidently means: only a
      found index is spliced out, so an unknown id changes nothing. */
  method DeleteExperienceIntended(store: Store, user: UserId, id: EntryId)
    returns (res: Response, store': Store)
    ensures user !in store ==> res == ServerError && store' == store
    ensures user in store ==>
              && store' == store[user := store[user].(experience := RemoveById(store[user].experience, id))]
              && res == Ok(store'[user])
    ensures ValidStore(store) ==> ValidStore(store')
  {
    if user !in store {
      return ServerError, store;
    }
    var profile := new ProfileDocument(store[user]);
    var removeIndex := IndexOf(Ids(profile.experience), id);
    SpliceIfFound(profile, removeIndex);
    var saved := profile.Snapshot();
    StoreAfterIntendedDelete(store, user, id, saved);
    store' := store[user := saved];
    res := Ok(saved);
  }

  /** `if (removeIndex !== -1) profile.experience.splice(removeIndex, 1)`:
      the guard the delete handler evidently means. */
  method SpliceIfFound(profile: ProfileDocument, removeIndex: int)
    modifies profile
    ensures profile.experience ==
            if removeIndex >= 0 then Splice(old(profile.experience), removeIndex, 1) else old(profile.experience)
  {
    if removeIndex >= 0 {
      profile.SpliceOut(removeIndex, 1);
    }
  }

  /** The store the intended delete leaves. */
  lemma StoreAfterIntendedDelete(store: Store, user: UserId, id: EntryId, saved: Profile)
    requires user in store
    requires saved == store[user].(experience :=
               if IndexOf(Ids(store[user].experience), id) >= 0
               then Splice(store[user].experience, IndexOf(Ids(store[user].experience), id), 1)
               else store[user].experience)
    ensures saved == store[user].(experience := RemoveById(store[user].experience, id))
    ensures ValidStore(store) ==> ValidStore(store[user := saved])
  {
    RemoveByIdIsGuardedSplice(store[user].experience, id);
    if ValidStore(store) {
      RemoveByIdRemovesOnlyThatId(store[user].experience, id);
      NewListKeepsValid(store, user, saved.experience);
    }
  }

  /** `PUT api/profile/experience/:exp_id`. A body failing validation yields
      400 and no write; with no profile the dereference at line 282 throws
      before the guard at line 286 and the answer is 500; otherwise the entry
      with that id is replaced wholesale by one built from the six request
      fields, and an unknown id (index -1) changes no entry. `newId` is the id
      the document layer gives the replacing entry, fresh in that list. */
  method UpdateExperience(store: Store, user: UserId, id: EntryId, body: ExperienceBody, newId: EntryId)
    returns (res: Response, store': Store)
    requires user in store ==> newId !in Ids(store[user].experience)
    ensures ValidateExperience(body) != [] ==>
              res == ValidationFailed(ValidateExperience(body)) && store' == store
    ensures ValidateExperience(body) == [] && user !in store ==> res == ServerError && store' == store
    ensures ValidateExperience(body) == [] && user in store ==>
              && store' == store[user := store[user].(experience :=
                                   ReplaceByIdAsWritten(store[user].experience, id, EntryFromBody(body, newId)))]
              && res == Ok(store'[user])
    ensures ValidStore(store) ==> ValidStore(store')
  {
    var errors := ValidateExperience(body);
    if errors != [] {
      return ValidationFailed(errors), store;
    }
    if user !in store {
      return ServerError, store;
    }
    var profile := new ProfileDocument(store[user]);
    var updIndex := IndexOf(Ids(profile.experience), id);
    var entry := EntryFromBody(body, newId);
    profile.AssignAt(updIndex, entry);
    var saved := profile.Snapshot();
    if ValidStore(store) && id in Ids(store[user].experience) {
      ReplaceFoundChangesOnePosition(store[user].experience, id, entry);
    }
    store' := store[user := saved];
    res := Ok(saved);
  }
}
