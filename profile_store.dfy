/** The routes of routes/api/profile.js over a store of profiles keyed by
    the owning user's id. The authenticated user id that the token
    middleware attaches to the request is an input of every protected
    route; the identity of a new experience or education entry, which the
    database assigns, is an input of the add routes. */
module ProfileRoutes {
  import opened JsBuiltins
  import opened ProfileModel

  const NoProfileMessage := "There is no profile for this user"
  const UserDeletedMessage := "User deleted"
  const ServerErrorMessage := "Server error"

  /** What a route answers. */
  datatype Response =
    | Ok(profile: Profile)              // res.json(profile)
    | Invalid(errors: seq<FieldError>)  // 400 {errors: [...]}
    | NoProfile(asJson: bool)           // 400 NoProfileMessage, as {msg} or as plain text
    | UserDeleted                       // {msg: UserDeletedMessage}
    | ServerError                       // 500 ServerErrorMessage

  /** The HTTP status of a response. */
  function StatusCode(r: Response): (code: int)
    ensures code == 200 <==> r.Ok? || r.UserDeleted?
    ensures code == 400 <==> r.Invalid? || r.NoProfile?
    ensures code == 500 <==> r.ServerError?
  {
    match r
    case Ok(_) => 200
    case Invalid(_) => 400
    case NoProfile(_) => 400
    case UserDeleted => 200
    case ServerError => 500
  }

  /** Builds `profileFields` the way the route does: start from `user`,
      add each key whose body value is truthy, then add a fresh `social`
      object holding each truthy link. */
  method BuildProfileFields(userId: UserId, body: ProfileBody) returns (f: FieldSet)
    ensures f == FieldSetOf(userId, body)
  {
    f := FieldSet(userId, None, None, None, None, None, None, None, NoLinks);
    if Truthy(body.company) { f := f.(company := body.company); }
    assert f.company == TruthyOnly(body.company);
    if Truthy(body.website) { f := f.(website := body.website); }
    assert f.website == TruthyOnly(body.website);
    if Truthy(body.location) { f := f.(location := body.location); }
    assert f.location == TruthyOnly(body.location);
    if Truthy(body.status) { f := f.(status := body.status); }
    assert f.status == TruthyOnly(body.status);
    if Truthy(body.bio) { f := f.(bio := body.bio); }
    assert f.bio == TruthyOnly(body.bio);
    if Truthy(body.githubusername) { f := f.(githubusername := body.githubusername); }
    assert f.githubusername == TruthyOnly(body.githubusername);
    if Truthy(body.skills) { f := f.(skills := Some(ParseSkills(body.skills.value))); }
    var social := BuildSocial(body);
    f := f.(social := social);
  }

  /** Builds `profileFields.social`: a fresh empty object, then each truthy
      link. */
  method BuildSocial(body: ProfileBody) returns (s: Social)
    ensures s == SocialOf(body)
  {
    s := NoLinks;
    if Truthy(body.youtube) { s := s.(youtube := body.youtube); }
    if Truthy(body.facebook) { s := s.(facebook := body.facebook); }
    if Truthy(body.twitter) { s := s.(twitter := body.twitter); }
    if Truthy(body.instagram) { s := s.(instagram := body.instagram); }
    if Truthy(body.linkedin) { s := s.(linkedin := body.linkedin); }
  }

  /** The profile collection: at most one profile per user, found by its
      `user` field, which is the key it is stored under. */
  class ProfileStore {
    var profiles: map<UserId, Profile>

    ghost predicate Valid()
      reads this
    {
      forall u :: u in profiles ==> profiles[u].user == u
    }

    constructor ()
      ensures Valid() && profiles == map[]
    {
      profiles := map[];
    }

    /** GET /api/profile/me. */
    method GetMine(userId: UserId) returns (r: Response)
      requires Valid()
      ensures userId !in profiles ==> r == NoProfile(true)
      ensures userId in profiles ==> r == Ok(profiles[userId])
      ensures r.Ok? ==> r.profile.user == userId
    {
      if userId !in profiles {
        return NoProfile(true);
      }
      r := Ok(profiles[userId]);
    }

    /** GET /api/profile/user/:user_id. */
    method GetByUser(userId: UserId) returns (r: Response)
      requires Valid()
      ensures userId !in profiles ==> r == NoProfile(false)
      ensures userId in profiles ==> r == Ok(profiles[userId])
      ensures r.Ok? ==> r.profile.user == userId
    {
      if userId !in profiles {
        return NoProfile(false);
      }
      r := Ok(profiles[userId]);
    }

    /** POST /api/profile: validate, build the field-set, then merge it into
        the user's profile or create the profile. */
    method CreateOrUpdate(userId: UserId, body: ProfileBody) returns (r: Response)
      requires Valid()
      modifies this
      ensures Valid()
      ensures ProfileErrors(body) != [] ==> r == Invalid(ProfileErrors(body)) && profiles == old(profiles)
      ensures ProfileErrors(body) == [] ==>
        var p := Upsert(old(profiles), userId, FieldSetOf(userId, body));
        profiles == old(profiles)[userId := p] && r == Ok(p)
      ensures ProfileErrors(body) == [] ==> profiles.Keys == old(profiles).Keys + {userId}
    {
      var errors := ProfileErrors(body);
      if errors != [] {
        return Invalid(errors);
      }
      var fields := BuildProfileFields(userId, body);
      if userId in profiles {
        var updated := ApplySet(profiles[userId], fields);
        profiles := profiles[userId := updated];
        return Ok(updated);
      }
      var created := NewProfile(fields);
      profiles := profiles[userId := created];
      r := Ok(created);
    }

    /** DELETE /api/profile: removes the user's profile if there is one and
        answers the same either way. */
    method Delete(userId: UserId) returns (r: Response)
      requires Valid()
      modifies this
      ensures Valid()
      ensures r == UserDeleted
      ensures profiles == old(profiles) - {userId}
    {
      profiles := profiles - {userId};
      r := UserDeleted;
    }

    /** PUT /api/profile/experience: validate, then put the new entry in
        front of the user's experience list. Without a profile the route
        fails on the missing document. */
    method AddExperience(userId: UserId, body: ExperienceBody, newId: EntryId) returns (r: Response)
      requires Valid()
      modifies this
      ensures Valid()
      ensures ExperienceErrors(body) != [] ==> r == Invalid(ExperienceErrors(body)) && profiles == old(profiles)
      ensures ExperienceErrors(body) == [] && userId !in old(profiles) ==> r == ServerError && profiles == old(profiles)
      ensures ExperienceErrors(body) == [] && userId in old(profiles) ==>
        var p := old(profiles)[userId];
        var q := p.(experience := Unshift(p.experience, NewExperience(newId, body)));
        profiles == old(profiles)[userId := q] && r == Ok(q)
    {
      var errors := ExperienceErrors(body);
      if errors != [] {
        return Invalid(errors);
      }
      if userId !in profiles {
        return ServerError;
      }
      var p := profiles[userId];
      var updated := p.(experience := Unshift(p.experience, NewExperience(newId, body)));
      profiles := profiles[userId := updated];
      r := Ok(updated);
    }

    /** DELETE /api/profile/experience/:exp_id, as written: the index is
        looked up among the entries themselves and the list is spliced at
        it. */
    method DeleteExperience(userId: UserId, expId: EntryId) returns (r: Response)
      requires Valid()
      modifies this
      ensures Valid()
      ensures userId !in old(profiles) ==> r == ServerError && profiles == old(profiles)
      ensures userId in old(profiles) ==>
        var p := old(profiles)[userId];
        var q := p.(experience := ExperienceAfterDelete(p.experience, expId));
        profiles == old(profiles)[userId := q] && r == Ok(q)
    {
      if userId !in profiles {
        return ServerError;
      }
      var p := profiles[userId];
      var updated := p.(experience := ExperienceAfterDelete(p.experience, expId));
      profiles := profiles[userId := updated];
      r := Ok(updated);
    }

    /** PUT /api/profile/education: validate, then put the new entry in
        front of the user's education list. */
    method AddEducation(userId: UserId, body: EducationBody, newId: EntryId) returns (r: Response)
      requires Valid()
      modifies this
      ensures Valid()
      ensures EducationErrors(body) != [] ==> r == Invalid(EducationErrors(body)) && profiles == old(profiles)
      ensures EducationErrors(body) == [] && userId !in old(profiles) ==> r == ServerError && profiles == old(profiles)
      ensures EducationErrors(body) == [] && userId in old(profiles) ==>
        var p := old(profiles)[userId];
        var q := p.(education := Unshift(p.education, NewEducation(newId, body)));
        profiles == old(profiles)[userId := q] && r == Ok(q)
    {
      var errors := EducationErrors(body);
      if errors != [] {
        return Invalid(errors);
      }
      if userId !in profiles {
        return ServerError;
      }
      var p := profiles[userId];
      var updated := p.(education := Unshift(p.education, NewEducation(newId, body)));
      profiles := profiles[userId := updated];
      r := Ok(updated);
    }

    /** DELETE /api/profile/education/:edu_id, as written: the index is
        looked up among the entry ids and the list is spliced at it. */
    method DeleteEducation(userId: UserId, eduId: EntryId) returns (r: Response)
      requires Valid()
      modifies this
      ensures Valid()
      ensures userId !in old(profiles) ==> r == ServerError && profiles == old(profiles)
      ensures userId in old(profiles) ==>
        var p := old(profiles)[userId];
        var q := p.(education := EducationAfterDelete(p.education, eduId));
        profiles == old(profiles)[userId := q] && r == Ok(q)
    {
      if userId !in profiles {
        return ServerError;
      }
      var p := profiles[userId];
      var updated := p.(education := EducationAfterDelete(p.education, eduId));
      profiles := profiles[userId := updated];
      r := Ok(updated);
    }
  }

  /** A client of the store: a profile created with a company keeps it
      through an update that does not resend it, the update's `social`
      replaces the stored one, and once the profile is deleted reading it
      answers "no profile". */
  method UpdateScenario(userId: UserId, first: ProfileBody, second: ProfileBody)
    returns (company: Option<string>, social: Social, last: Response)
    requires ProfileErrors(first) == [] && ProfileErrors(second) == []
    requires Truthy(first.company) && !Truthy(second.company)
    ensures company == first.company
    ensures social == SocialOf(second)
    ensures last == NoProfile(true)
  {
    var store := new ProfileStore();
    CreateThenUpdate(store.profiles, userId, first, second);
    var r := store.CreateOrUpdate(userId, first);
    r := store.CreateOrUpdate(userId, second);
    company := store.profiles[userId].company;
    social := store.profiles[userId].social;
    r := store.Delete(userId);
    last := store.GetMine(userId);
  }
}
