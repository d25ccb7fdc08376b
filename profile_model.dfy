/** The profile aggregate of routes/api/profile.js as values: the stored
    profile document, the request bodies, the request validation, the
    partial field-set a create/update request builds, the `$set` merge of
    that field-set into a stored profile, and the entry lists' prepend and
    remove operations. The store that holds the profiles is in
    profile_store.dfy. */
module ProfileModel {
  import opened JsBuiltins

  type UserId = string
  type EntryId = string

  // ---------------------------------------------------------------------
  // Stored documents
  // ---------------------------------------------------------------------

  /** The `social` sub-object; an absent link is None. */
  datatype Social = Social(
    youtube: Option<string>,
    facebook: Option<string>,
    twitter: Option<string>,
    instagram: Option<string>,
    linkedin: Option<string>)

  /** The empty `social` object `{}`. */
  const NoLinks := Social(None, None, None, None, None)

  /** One `experience` entry; `id` is the identity the store assigns on insertion. */
  datatype Experience = Experience(
    id: EntryId,
    title: Option<string>,
    company: Option<string>,
    location: Option<string>,
    from: Option<string>,
    to: Option<string>,
    current: Option<string>,
    description: Option<string>)

  /** One `education` entry; `id` is the identity the store assigns on insertion. */
  datatype Education = Education(
    id: EntryId,
    school: Option<string>,
    degree: Option<string>,
    fieldofstudy: Option<string>,
    from: Option<string>,
    to: Option<string>,
    status: Option<string>,
    description: Option<string>)

  /** A stored profile. A scalar that was never set is None; the list
      fields default to the empty list. */
  datatype Profile = Profile(
    user: UserId,
    company: Option<string>,
    website: Option<string>,
    location: Option<string>,
    status: Option<string>,
    bio: Option<string>,
    githubusername: Option<string>,
    skills: seq<string>,
    social: Social,
    experience: seq<Experience>,
    education: seq<Education>)

  // ---------------------------------------------------------------------
  // Request bodies
  // ---------------------------------------------------------------------

  /** The body of POST /api/profile, every key possibly undefined.
      `user`, `experience` and `education` are read from the body but the
      route never uses them. */
  datatype ProfileBody = ProfileBody(
    user: Option<string>,
    company: Option<string>,
    website: Option<string>,
    location: Option<string>,
    status: Option<string>,
    skills: Option<string>,
    bio: Option<string>,
    githubusername: Option<string>,
    experience: Option<string>,
    education: Option<string>,
    youtube: Option<string>,
    facebook: Option<string>,
    twitter: Option<string>,
    instagram: Option<string>,
    linkedin: Option<string>)

  /** The body of PUT /api/profile/experience. */
  datatype ExperienceBody = ExperienceBody(
    title: Option<string>,
    company: Option<string>,
    location: Option<string>,
    from: Option<string>,
    to: Option<string>,
    current: Option<string>,
    description: Option<string>)

  /** The body of PUT /api/profile/education. */
  datatype EducationBody = EducationBody(
    school: Option<string>,
    degree: Option<string>,
    fieldofstudy: Option<string>,
    from: Option<string>,
    to: Option<string>,
    status: Option<string>,
    description: Option<string>)

  // ---------------------------------------------------------------------
  // Validation
  // ---------------------------------------------------------------------

  /** One element of the `errors` array of a 400 answer. */
  datatype FieldError = FieldError(param: string, msg: string)

  /** `check(param, msg).not().isEmpty()`: one error when the value is
      undefined or the empty string, none otherwise. */
  function Required(v: Option<string>, param: string, msg: string): (r: seq<FieldError>)
    ensures r == [] <==> Truthy(v)
    ensures r != [] ==> r == [FieldError(param, msg)]
  {
    if Truthy(v) then [] else [FieldError(param, msg)]
  }

  /** 1 when the check of a value fails, 0 when it passes. */
  function Failed(v: Option<string>): (n: nat)
    ensures n == 0 <==> Truthy(v)
  {
    if Truthy(v) then 0 else 1
  }

  /** The number of failing values. */
  function FailedCount(vs: seq<Option<string>>): nat {
    if vs == [] then 0 else Failed(vs[0]) + FailedCount(vs[1..])
  }

  ghost predicate Distinct(checks: seq<FieldError>) {
    forall i, j :: 0 <= i < j < |checks| ==> checks[i] != checks[j]
  }

  /** Of two errors, the one whose check is declared earlier comes first. */
  predicate InDeclarationOrder(r: seq<FieldError>, checks: seq<FieldError>) {
    forall i, j :: 0 <= i < j < |r| ==> IndexOf(checks, r[i]) < IndexOf(checks, r[j])
  }

  /** A route's array of `check(param, msg).not().isEmpty()` validators, the
      i-th applied to `vs[i]`, and `validationResult(req).array()`: the
      errors of the failing checks, collected in declaration order. */
  function CheckAll(vs: seq<Option<string>>, checks: seq<FieldError>): (r: seq<FieldError>)
    requires |vs| == |checks|
    ensures forall e :: e in r ==> e in checks
  {
    if vs == [] then []
    else
      var rest := CheckAll(vs[1..], checks[1..]);
      assert forall e :: e in rest ==> e in checks by {
        assert checks == [checks[0]] + checks[1..];
      }
      Required(vs[0], checks[0].param, checks[0].msg) + rest
  }

  /** Behind a non-matching head, the position of `x` is one more than its
      position in the tail. */
  lemma IndexOfBehindHead(s: seq<FieldError>, x: FieldError)
    requires s != [] && s[0] != x && x in s[1..]
    ensures IndexOf(s, x) == IndexOf(s[1..], x) + 1
  {
  }

  /** The errors of a list of checks: those of the first check, then the
      rest. */
  lemma CheckAllUnfold(vs: seq<Option<string>>, checks: seq<FieldError>)
    requires |vs| == |checks| && vs != []
    ensures CheckAll(vs, checks) == Required(vs[0], checks[0].param, checks[0].msg) + CheckAll(vs[1..], checks[1..])
    ensures checks[0] == FieldError(checks[0].param, checks[0].msg)
  {
  }

  /** Dropping the first check keeps the rest distinct and without it. */
  lemma DistinctTail(checks: seq<FieldError>)
    requires checks != [] && Distinct(checks)
    ensures Distinct(checks[1..])
    ensures checks[0] !in checks[1..]
  {
    var tail := checks[1..];
    forall i, j | 0 <= i < j < |tail| ensures tail[i] != tail[j] {
      assert tail[i] == checks[i + 1] && tail[j] == checks[j + 1];
    }
    forall k | 0 <= k < |tail| ensures tail[k] != checks[0] {
      assert tail[k] == checks[k + 1];
    }
  }

  /** There is one error per failing value. */
  lemma {:induction false} CheckAllCount(vs: seq<Option<string>>, checks: seq<FieldError>)
    requires |vs| == |checks|
    ensures |CheckAll(vs, checks)| == FailedCount(vs)
  {
    if vs != [] {
      CheckAllUnfold(vs, checks);
      CheckAllCount(vs[1..], checks[1..]);
    }
  }

  /** With distinct checks, a check's error is reported exactly when its
      value fails. */
  lemma {:induction false} CheckAllReports(vs: seq<Option<string>>, checks: seq<FieldError>)
    requires |vs| == |checks|
    requires Distinct(checks)
    ensures forall i :: 0 <= i < |checks| ==> (checks[i] in CheckAll(vs, checks) <==> !Truthy(vs[i]))
  {
    if vs != [] {
      CheckAllUnfold(vs, checks);
      DistinctTail(checks);
      CheckAllReports(vs[1..], checks[1..]);
      var r := CheckAll(vs, checks);
      var rest := CheckAll(vs[1..], checks[1..]);
      assert checks[0] !in rest;
      forall i | 0 <= i < |checks| ensures checks[i] in r <==> !Truthy(vs[i]) {
        if i > 0 {
          assert checks[i] == checks[1..][i - 1] && vs[i] == vs[1..][i - 1];
          assert checks[i] != checks[0] by {
            assert checks[1..][i - 1] in checks[1..];
          }
        }
      }
    }
  }

  /** With distinct checks, the errors come in declaration order. */
  lemma {:induction false} CheckAllOrdered(vs: seq<Option<string>>, checks: seq<FieldError>)
    requires |vs| == |checks|
    requires Distinct(checks)
    ensures InDeclarationOrder(CheckAll(vs, checks), checks)
  {
    if vs != [] {
      CheckAllUnfold(vs, checks);
      DistinctTail(checks);
      CheckAllOrdered(vs[1..], checks[1..]);
      var c := checks[0];
      var head := Required(vs[0], c.param, c.msg);
      var rest := CheckAll(vs[1..], checks[1..]);
      var r := head + rest;
      forall i, j | 0 <= i < j < |r| ensures IndexOf(checks, r[i]) < IndexOf(checks, r[j]) {
        assert r[j] == rest[j - |head|];
        IndexOfBehindHead(checks, r[j]);
        if i >= |head| {
          assert r[i] == rest[i - |head|];
          IndexOfBehindHead(checks, r[i]);
        }
      }
    }
  }

  const StatusRequired := FieldError("status", "Status is required")
  const SkillsRequired := FieldError("skills", "Skills are not empty")
  const ProfileChecks := [StatusRequired, SkillsRequired]

  /** The validation errors of a create/update request. */
  function ProfileErrors(body: ProfileBody): (r: seq<FieldError>)
    ensures r == [] <==> Truthy(body.status) && Truthy(body.skills)
    ensures StatusRequired in r <==> !Truthy(body.status)
    ensures SkillsRequired in r <==> !Truthy(body.skills)
    ensures |r| == Failed(body.status) + Failed(body.skills)
    ensures InDeclarationOrder(r, ProfileChecks)
    ensures |r| == 2 ==> r == [StatusRequired, SkillsRequired]
  {
    var vs := [body.status, body.skills];
    CheckAllReports(vs, ProfileChecks);
    CheckAllCount(vs, ProfileChecks);
    CheckAllOrdered(vs, ProfileChecks);
    assert vs[1..] == [body.skills] && vs[1..][1..] == [];
    assert FailedCount(vs) == Failed(body.status) + FailedCount([body.skills]);
    assert ProfileChecks[1] == SkillsRequired && vs[1] == body.skills;
    CheckAll(vs, ProfileChecks)
  }

  const TitleRequired := FieldError("title", "title is required")
  const CompanyRequired := FieldError("company", "company is required")
  const FromDateRequired := FieldError("from", "from date is required")
  const ExperienceChecks := [TitleRequired, CompanyRequired, FromDateRequired]

  /** The validation errors of an add-experience request. */
  function ExperienceErrors(body: ExperienceBody): (r: seq<FieldError>)
    ensures r == [] <==> Truthy(body.title) && Truthy(body.company) && Truthy(body.from)
    ensures TitleRequired in r <==> !Truthy(body.title)
    ensures CompanyRequired in r <==> !Truthy(body.company)
    ensures FromDateRequired in r <==> !Truthy(body.from)
    ensures |r| == Failed(body.title) + Failed(body.company) + Failed(body.from)
    ensures InDeclarationOrder(r, ExperienceChecks)
  {
    var vs := [body.title, body.company, body.from];
    CheckAllReports(vs, ExperienceChecks);
    CheckAllCount(vs, ExperienceChecks);
    CheckAllOrdered(vs, ExperienceChecks);
    assert vs[1..] == [body.company, body.from] && vs[1..][1..] == [body.from] && vs[1..][1..][1..] == [];
    assert FailedCount(vs) == Failed(body.title) + FailedCount([body.company, body.from]);
    assert FailedCount([body.company, body.from]) == Failed(body.company) + FailedCount([body.from]);
    assert ExperienceChecks[1] == CompanyRequired && vs[1] == body.company;
    assert ExperienceChecks[2] == FromDateRequired && vs[2] == body.from;
    CheckAll(vs, ExperienceChecks)
  }

  const SchoolRequired := FieldError("school", "School is required")
  const FieldOfStudyRequired := FieldError("fieldofstudy", "fieldofstudy is required")
  const DegreeRequired := FieldError("degree", "degree is required")
  const FromRequired := FieldError("from", "from is required")
  const EducationChecks := [SchoolRequired, FieldOfStudyRequired, DegreeRequired, FromRequired]

  /** The validation errors of an add-education request. */
  function EducationErrors(body: EducationBody): (r: seq<FieldError>)
    ensures r == [] <==> Truthy(body.school) && Truthy(body.fieldofstudy) && Truthy(body.degree) && Truthy(body.from)
    ensures SchoolRequired in r <==> !Truthy(body.school)
    ensures FieldOfStudyRequired in r <==> !Truthy(body.fieldofstudy)
    ensures DegreeRequired in r <==> !Truthy(body.degree)
    ensures FromRequired in r <==> !Truthy(body.from)
    ensures |r| == Failed(body.school) + Failed(body.fieldofstudy) + Failed(body.degree) + Failed(body.from)
    ensures InDeclarationOrder(r, EducationChecks)
  {
    var vs := [body.school, body.fieldofstudy, body.degree, body.from];
    CheckAllReports(vs, EducationChecks);
    CheckAllCount(vs, EducationChecks);
    CheckAllOrdered(vs, EducationChecks);
    assert vs[1..] == [body.fieldofstudy, body.degree, body.from];
    assert vs[1..][1..] == [body.degree, body.from];
    assert vs[1..][1..][1..] == [body.from] && vs[1..][1..][1..][1..] == [];
    assert FailedCount(vs) == Failed(body.school) + FailedCount([body.fieldofstudy, body.degree, body.from]);
    assert FailedCount([body.fieldofstudy, body.degree, body.from]) == Failed(body.fieldofstudy) + FailedCount([body.degree, body.from]);
    assert FailedCount([body.degree, body.from]) == Failed(body.degree) + FailedCount([body.from]);
    assert EducationChecks[1] == FieldOfStudyRequired && vs[1] == body.fieldofstudy;
    assert EducationChecks[2] == DegreeRequired && vs[2] == body.degree;
    assert EducationChecks[3] == FromRequired && vs[3] == body.from;
    CheckAll(vs, EducationChecks)
  }

  // ---------------------------------------------------------------------
  // The field-set of a create/update request
  // ---------------------------------------------------------------------

  /** The `profileFields` object: `user` and `social` are always set; a
      scalar or `skills` that is None is a key the object does not have. */
  datatype FieldSet = FieldSet(
    user: UserId,
    company: Option<string>,
    website: Option<string>,
    location: Option<string>,
    status: Option<string>,
    bio: Option<string>,
    githubusername: Option<string>,
    skills: Option<seq<string>>,
    social: Social)

  /** `skills.split(",").map((skill) => skill.trim())`. */
  function ParseSkills(skills: string): (r: seq<string>)
    ensures |r| == Count(skills, ',') + 1
    ensures forall i :: 0 <= i < |r| ==> r[i] == Trim(Split(skills, ',')[i])
    ensures forall i :: 0 <= i < |r| ==> ',' !in r[i]
  {
    var pieces := Split(skills, ',');
    seq(|pieces|, i requires 0 <= i < |pieces| => Trim(pieces[i]))
  }

  /** The fresh `social` object of a create/update request: exactly the
      truthy links of the body, nothing carried over from storage. */
  function SocialOf(body: ProfileBody): (s: Social)
    ensures s.youtube.Some? <==> Truthy(body.youtube)
    ensures s.facebook.Some? <==> Truthy(body.facebook)
    ensures s.twitter.Some? <==> Truthy(body.twitter)
    ensures s.instagram.Some? <==> Truthy(body.instagram)
    ensures s.linkedin.Some? <==> Truthy(body.linkedin)
    ensures s.youtube.Some? ==> s.youtube == body.youtube
    ensures s.facebook.Some? ==> s.facebook == body.facebook
    ensures s.twitter.Some? ==> s.twitter == body.twitter
    ensures s.instagram.Some? ==> s.instagram == body.instagram
    ensures s.linkedin.Some? ==> s.linkedin == body.linkedin
  {
    Social(
      TruthyOnly(body.youtube),
      TruthyOnly(body.facebook),
      TruthyOnly(body.twitter),
      TruthyOnly(body.instagram),
      TruthyOnly(body.linkedin))
  }

  /** The field-set built for the authenticated user `userId` from `body`.
      The result never holds an empty string: a falsy value leaves its key
      out instead. */
  function FieldSetOf(userId: UserId, body: ProfileBody): (f: FieldSet)
    ensures f.user == userId
    ensures f.company.Some? <==> Truthy(body.company)
    ensures f.website.Some? <==> Truthy(body.website)
    ensures f.location.Some? <==> Truthy(body.location)
    ensures f.status.Some? <==> Truthy(body.status)
    ensures f.bio.Some? <==> Truthy(body.bio)
    ensures f.githubusername.Some? <==> Truthy(body.githubusername)
    ensures f.skills.Some? <==> Truthy(body.skills)
    ensures f.company.Some? ==> f.company == body.company
    ensures f.website.Some? ==> f.website == body.website
    ensures f.location.Some? ==> f.location == body.location
    ensures f.status.Some? ==> f.status == body.status
    ensures f.bio.Some? ==> f.bio == body.bio
    ensures f.githubusername.Some? ==> f.githubusername == body.githubusername
    ensures f.skills.Some? ==> f.skills.value == ParseSkills(body.skills.value)
    ensures f.social == SocialOf(body)
  {
    FieldSet(
      userId,
      TruthyOnly(body.company),
      TruthyOnly(body.website),
      TruthyOnly(body.location),
      TruthyOnly(body.status),
      TruthyOnly(body.bio),
      TruthyOnly(body.githubusername),
      if Truthy(body.skills) then Some(ParseSkills(body.skills.value)) else None,
      SocialOf(body))
  }

  /** The owner of the field-set is the authenticated user whatever the
      body's own `user` key says. */
  lemma BodyUserIgnored(userId: UserId, body: ProfileBody, claimed: Option<string>)
    ensures FieldSetOf(userId, body.(user := claimed)) == FieldSetOf(userId, body)
    ensures FieldSetOf(userId, body).user == userId
  {
  }

  /** Once validation has passed, the field-set always carries `status` and
      `skills`, and `skills` has one element per comma-separated piece. */
  lemma ValidatedFieldSet(userId: UserId, body: ProfileBody)
    requires ProfileErrors(body) == []
    ensures FieldSetOf(userId, body).status == body.status
    ensures FieldSetOf(userId, body).skills.Some?
    ensures |FieldSetOf(userId, body).skills.value| == Count(body.skills.value, ',') + 1
  {
  }

  /** Parsing a comma-joined list gives back each piece trimmed. */
  lemma ParseSkillsOfJoin(pieces: seq<string>)
    requires |pieces| >= 1
    requires forall i :: 0 <= i < |pieces| ==> ',' !in pieces[i]
    ensures |ParseSkills(Join(pieces, ','))| == |pieces|
    ensures forall i :: 0 <= i < |pieces| ==> ParseSkills(Join(pieces, ','))[i] == Trim(pieces[i])
  {
    SplitJoin(pieces, ',');
  }

  /** A skill name as a user types it: non-empty, without commas and
      without whitespace at either end (such as "js", "node", "go"). */
  predicate PlainSkill(w: string) {
    w != [] && ',' !in w && !IsJsWhitespace(w[0]) && !IsJsWhitespace(w[|w| - 1])
  }

  /** Input shaped like "js, node , go" gives the three names, unpadded. */
  lemma SkillsExample(a: string, b: string, c: string)
    requires PlainSkill(a) && PlainSkill(b) && PlainSkill(c)
    ensures ParseSkills(a + ", " + b + " , " + c) == [a, b, c]
  {
    JoinThree(a, [' '] + b + [' '], [' '] + c, ',');
    SkillsExampleText(a, b, c);
    SkillsExamplePieces(a, b, c);
  }

  lemma SkillsExampleText(a: string, b: string, c: string)
    ensures a + [','] + ([' '] + b + [' ']) + [','] + ([' '] + c) == a + ", " + b + " , " + c
  {
    assert ", " == [','] + [' '];
    assert " , " == [' '] + [','] + [' '];
  }

  lemma SkillsExamplePieces(a: string, b: string, c: string)
    requires PlainSkill(a) && PlainSkill(b) && PlainSkill(c)
    ensures ParseSkills(Join([a, [' '] + b + [' '], [' '] + c], ',')) == [a, b, c]
  {
    var b' := [' '] + b + [' '];
    var c' := [' '] + c;
    ParseSkillsOfJoin([a, b', c']);
    var r := ParseSkills(Join([a, b', c'], ','));
    assert r[0] == a by { TrimKeepsUnpadded(a); }
    assert r[1] == b by { TrimSpacePadding(b); }
    assert r[2] == c by { TrimSpacePadding(c); }
  }

  /** Empty pieces are kept: input shaped like "a,,b" gives three skills,
      the middle one empty. */
  lemma SkillsKeepEmptyPieces(a: string, b: string)
    requires PlainSkill(a) && PlainSkill(b)
    ensures ParseSkills(a + ",," + b) == [a, "", b]
  {
    JoinThree(a, "", b, ',');
    assert Join([a, "", b], ',') == a + ",," + b;
    ParseSkillsOfJoin([a, "", b]);
    TrimKeepsUnpadded(a);
    TrimKeepsUnpadded("");
    TrimKeepsUnpadded(b);
  }

  // ---------------------------------------------------------------------
  // Merge and create, key by key
  // ---------------------------------------------------------------------

  /** The keys of a profile document. */
  datatype Key = UserKey | CompanyKey | WebsiteKey | LocationKey | StatusKey | BioKey
               | GithubKey | SkillsKey | SocialKey | ExperienceKey | EducationKey

  /** The value stored under one key. */
  datatype Value =
    | Owner(id: UserId)
    | Scalar(s: Option<string>)
    | Skills(list: seq<string>)
    | Links(social: Social)
    | Experiences(exps: seq<Experience>)
    | Educations(edus: seq<Education>)

  /** The value of key `k` in profile `p`. */
  function Get(p: Profile, k: Key): Value {
    match k
    case UserKey => Owner(p.user)
    case CompanyKey => Scalar(p.company)
    case WebsiteKey => Scalar(p.website)
    case LocationKey => Scalar(p.location)
    case StatusKey => Scalar(p.status)
    case BioKey => Scalar(p.bio)
    case GithubKey => Scalar(p.githubusername)
    case SkillsKey => Skills(p.skills)
    case SocialKey => Links(p.social)
    case ExperienceKey => Experiences(p.experience)
    case EducationKey => Educations(p.education)
  }

  /** Whether key `k` is present in the `profileFields` object. */
  predicate HasKey(f: FieldSet, k: Key) {
    match k
    case UserKey => true
    case CompanyKey => f.company.Some?
    case WebsiteKey => f.website.Some?
    case LocationKey => f.location.Some?
    case StatusKey => f.status.Some?
    case BioKey => f.bio.Some?
    case GithubKey => f.githubusername.Some?
    case SkillsKey => f.skills.Some?
    case SocialKey => true
    case ExperienceKey => false
    case EducationKey => false
  }

  /** The value the field-set carries for key `k` (meaningful for the
      keys `HasKey` admits). */
  function Assigned(f: FieldSet, k: Key): Value {
    match k
    case UserKey => Owner(f.user)
    case CompanyKey => Scalar(f.company)
    case WebsiteKey => Scalar(f.website)
    case LocationKey => Scalar(f.location)
    case StatusKey => Scalar(f.status)
    case BioKey => Scalar(f.bio)
    case GithubKey => Scalar(f.githubusername)
    case SkillsKey => Skills(if f.skills.Some? then f.skills.value else [])
    case SocialKey => Links(f.social)
    case ExperienceKey => Experiences([])
    case EducationKey => Educations([])
  }

  /** The value a freshly created profile has under a key it was not given. */
  function Default(k: Key): Value {
    match k
    case UserKey => Owner("")
    case SkillsKey => Skills([])
    case SocialKey => Links(NoLinks)
    case ExperienceKey => Experiences([])
    case EducationKey => Educations([])
    case _ => Scalar(None)
  }

  /** `findOneAndUpdate({user}, {$set: f})`: every key in the field-set is
      overwritten, every other stored key keeps its value. */
  function ApplySet(p: Profile, f: FieldSet): (r: Profile)
    ensures forall k :: Get(r, k) == if HasKey(f, k) then Assigned(f, k) else Get(p, k)
  {
    Profile(
      f.user,
      if f.company.Some? then f.company else p.company,
      if f.website.Some? then f.website else p.website,
      if f.location.Some? then f.location else p.location,
      if f.status.Some? then f.status else p.status,
      if f.bio.Some? then f.bio else p.bio,
      if f.githubusername.Some? then f.githubusername else p.githubusername,
      if f.skills.Some? then f.skills.value else p.skills,
      f.social,
      p.experience,
      p.education)
  }

  /** `new Profile(f)`: the field-set's keys, defaults everywhere else. */
  function NewProfile(f: FieldSet): (r: Profile)
    ensures forall k :: Get(r, k) == if HasKey(f, k) then Assigned(f, k) else Default(k)
  {
    Profile(f.user, f.company, f.website, f.location, f.status, f.bio, f.githubusername,
            if f.skills.Some? then f.skills.value else [], f.social, [], [])
  }

  /** A profile is determined by its values key by key. */
  lemma {:induction false} ProfileByKeys(p: Profile, q: Profile)
    requires forall k :: Get(p, k) == Get(q, k)
    ensures p == q
  {
    assert Get(p, UserKey) == Get(q, UserKey);
    assert Get(p, CompanyKey) == Get(q, CompanyKey);
    assert Get(p, WebsiteKey) == Get(q, WebsiteKey);
    assert Get(p, LocationKey) == Get(q, LocationKey);
    assert Get(p, StatusKey) == Get(q, StatusKey);
    assert Get(p, BioKey) == Get(q, BioKey);
    assert Get(p, GithubKey) == Get(q, GithubKey);
    assert Get(p, SkillsKey) == Get(q, SkillsKey);
    assert Get(p, SocialKey) == Get(q, SocialKey);
    assert Get(p, ExperienceKey) == Get(q, ExperienceKey);
    assert Get(p, EducationKey) == Get(q, EducationKey);
  }

  /** Sending the same update twice leaves the profile as sending it once. */
  lemma ApplySetIdempotent(p: Profile, f: FieldSet)
    ensures ApplySet(ApplySet(p, f), f) == ApplySet(p, f)
  {
    ProfileByKeys(ApplySet(ApplySet(p, f), f), ApplySet(p, f));
  }

  /** The stored `social` object is replaced, not merged: a link stored
      before and not sent again is gone. */
  lemma SocialReplaced(p: Profile, userId: UserId, body: ProfileBody)
    ensures ApplySet(p, FieldSetOf(userId, body)).social == FieldSetOf(userId, body).social
    ensures !Truthy(body.youtube) ==> ApplySet(p, FieldSetOf(userId, body)).social.youtube == None
    ensures !Truthy(body.facebook) ==> ApplySet(p, FieldSetOf(userId, body)).social.facebook == None
    ensures !Truthy(body.twitter) ==> ApplySet(p, FieldSetOf(userId, body)).social.twitter == None
    ensures !Truthy(body.instagram) ==> ApplySet(p, FieldSetOf(userId, body)).social.instagram == None
    ensures !Truthy(body.linkedin) ==> ApplySet(p, FieldSetOf(userId, body)).social.linkedin == None
  {
  }

  /** An update that sends only `location` (with the required `status` and
      `skills`) keeps a stored `company`. */
  lemma PartialMergeKeepsCompany(p: Profile, userId: UserId, body: ProfileBody)
    requires !Truthy(body.company)
    ensures ApplySet(p, FieldSetOf(userId, body)).company == p.company
  {
    assert !HasKey(FieldSetOf(userId, body), CompanyKey);
    assert Get(ApplySet(p, FieldSetOf(userId, body)), CompanyKey) == Get(p, CompanyKey);
  }

  /** The upsert: merge into the stored profile, or create one. */
  function Upsert(profiles: map<UserId, Profile>, userId: UserId, f: FieldSet): (r: Profile)
    requires f.user == userId
    ensures r.user == userId
    ensures userId in profiles ==> r == ApplySet(profiles[userId], f)
    ensures userId !in profiles ==> r == NewProfile(f)
    ensures userId in profiles ==> r.experience == profiles[userId].experience && r.education == profiles[userId].education
  {
    if userId in profiles then ApplySet(profiles[userId], f) else NewProfile(f)
  }

  /** A profile created with a company and then updated without one keeps
      the company, its `social` is the update's, and it has no entries
      yet. */
  lemma CreateThenUpdate(profiles: map<UserId, Profile>, userId: UserId, first: ProfileBody, second: ProfileBody)
    requires userId !in profiles
    requires Truthy(first.company) && !Truthy(second.company)
    ensures var created := Upsert(profiles, userId, FieldSetOf(userId, first));
      var updated := Upsert(profiles[userId := created], userId, FieldSetOf(userId, second));
      && updated.company == first.company && updated.social == SocialOf(second)
      && updated.experience == [] && updated.education == []
  {
    var created := Upsert(profiles, userId, FieldSetOf(userId, first));
    assert created.company == first.company by {
      assert Get(created, CompanyKey) == Scalar(FieldSetOf(userId, first).company);
    }
    PartialMergeKeepsCompany(created, userId, second);
    SocialReplaced(created, userId, second);
  }

  // ---------------------------------------------------------------------
  // Adding entries
  // ---------------------------------------------------------------------

  /** The `newExp` object, carrying the identity the store assigns. */
  function NewExperience(id: EntryId, body: ExperienceBody): (e: Experience)
    ensures e.id == id && e.title == body.title && e.company == body.company
    ensures e.location == body.location && e.from == body.from && e.to == body.to
    ensures e.current == body.current && e.description == body.description
  {
    Experience(id, body.title, body.company, body.location, body.from, body.to, body.current, body.description)
  }

  /** The `newEdu` object, carrying the identity the store assigns. */
  function NewEducation(id: EntryId, body: EducationBody): (e: Education)
    ensures e.id == id && e.school == body.school && e.degree == body.degree
    ensures e.fieldofstudy == body.fieldofstudy && e.from == body.from && e.to == body.to
    ensures e.status == body.status && e.description == body.description
  {
    Education(id, body.school, body.degree, body.fieldofstudy, body.from, body.to, body.status, body.description)
  }

  /** `list.unshift(x)`: `x` goes in front and the old list follows in order. */
  function Unshift<T>(list: seq<T>, x: T): (r: seq<T>)
    ensures |r| == |list| + 1
    ensures r[0] == x
    ensures r[1..] == list
  {
    [x] + list
  }

  /** Adding E1 and then E2 leaves E2 first, E1 second, and the earlier entries after them. */
  lemma UnshiftTwice<T>(list: seq<T>, e1: T, e2: T)
    ensures Unshift(Unshift(list, e1), e2) == [e2, e1] + list
  {
  }

  // ---------------------------------------------------------------------
  // Removing entries
  // ---------------------------------------------------------------------

  /** `entries.map((item) => item.id)`, for the id accessor of either
      kind of entry. */
  function EntryIds<T>(es: seq<T>, idOf: T -> EntryId): (ids: seq<EntryId>)
    ensures |ids| == |es|
    ensures forall i :: 0 <= i < |es| ==> ids[i] == idOf(es[i])
  {
    seq(|es|, i requires 0 <= i < |es| => idOf(es[i]))
  }

  function EducationId(e: Education): EntryId { e.id }

  function ExperienceId(e: Experience): EntryId { e.id }

  /** `entry == idString` for an experience subdocument and the path
      parameter. Loose equality of an object and a string compares the
      object's string rendering (the inspected document, braces and all),
      which is never the bare id string. */
  predicate EntryLooseEqualsId(e: Experience, id: string) {
    false
  }

  /** `profile.experience.indexOf(exp_id)`: the search runs over the
      entries themselves, so the first entry loosely equal to the id
      string, or -1. */
  function ExperienceIndex(es: seq<Experience>, id: EntryId): (i: int)
    ensures -1 <= i < |es|
    ensures i == -1 <==> forall k :: 0 <= k < |es| ==> !EntryLooseEqualsId(es[k], id)
    ensures 0 <= i ==> EntryLooseEqualsId(es[i], id)
  {
    if es == [] then -1
    else if EntryLooseEqualsId(es[0], id) then 0
    else
      var j := ExperienceIndex(es[1..], id);
      if j == -1 then -1 else j + 1
  }

  /** `education.map(item => item.id).indexOf(edu_id)`. */
  function EducationIndex(es: seq<Education>, id: EntryId): (i: int)
    ensures -1 <= i < |es|
    ensures i == -1 <==> forall k :: 0 <= k < |es| ==> es[k].id != id
    ensures 0 <= i ==> es[i].id == id && forall k :: 0 <= k < i ==> es[k].id != id
  {
    var ids := EntryIds(es, EducationId);
    var i := IndexOf(ids, id);
    assert i == -1 <==> id !in ids;
    assert 0 <= i ==> forall k :: 0 <= k < i ==> ids[..i][k] == es[k].id;
    i
  }

  /** The experience list after DELETE /experience/:exp_id, as written.
      The index lookup never matches, so the last entry is removed
      whatever id is asked for (`splice(-1, 1)`). */
  function ExperienceAfterDelete(es: seq<Experience>, id: EntryId): (r: seq<Experience>)
    ensures es != [] ==> r == es[..|es| - 1]
    ensures es == [] ==> r == []
  {
    SpliceOne(es, ExperienceIndex(es, id))
  }

  /** The education list after DELETE /education/:edu_id, as written. A
      non-empty list always loses exactly one of its entries, whether or
      not one has the id. */
  function EducationAfterDelete(es: seq<Education>, id: EntryId): (r: seq<Education>)
    ensures es != [] ==> |r| == |es| - 1
    ensures es == [] ==> r == []
    ensures multiset(r) <= multiset(es)
  {
    SpliceOne(es, EducationIndex(es, id))
  }

  /** Removing an education entry whose id is present removes exactly the
      first entry with that id and keeps the others in order. */
  lemma EducationDeleteFound(es: seq<Education>, id: EntryId, i: nat)
    requires i < |es| && es[i].id == id
    requires forall k :: 0 <= k < i ==> es[k].id != id
    ensures EducationAfterDelete(es, id) == es[..i] + es[i + 1..]
  {
  }

  /** Removing an education entry with an id that is not present removes
      the last entry (`splice(-1, 1)`); an empty list stays empty. */
  lemma EducationDeleteMissing(es: seq<Education>, id: EntryId)
    requires forall k :: 0 <= k < |es| ==> es[k].id != id
    ensures es != [] ==> EducationAfterDelete(es, id) == es[..|es| - 1]
    ensures es == [] ==> EducationAfterDelete(es, id) == []
  {
  }

  /** Two entries and an id neither has: the second entry is lost. */
  lemma EducationDeleteUnknownIdExample(e1: Education, e2: Education, missing: EntryId)
    requires e1.id != missing && e2.id != missing
    ensures EducationAfterDelete([e1, e2], missing) == [e1]
  {
    var es := [e1, e2];
    assert EducationIndex(es, missing) == -1 by {
      assert forall k :: 0 <= k < |es| ==> es[k].id != missing;
    }
    assert SpliceOne(es, -1) == es[..1];
  }

  // ---------------------------------------------------------------------
  // Corrected removal
  // ---------------------------------------------------------------------

  /** Removal by identity as intended: the first entry whose id matches is
      removed; when none matches the list is unchanged. */
  function RemoveById<T>(es: seq<T>, ids: seq<EntryId>, id: EntryId): (r: seq<T>)
    requires |ids| == |es|
    ensures id !in ids ==> r == es
    ensures id in ids ==> |r| == |es| - 1 && r == es[..IndexOf(ids, id)] + es[IndexOf(ids, id) + 1..]
  {
    var i := IndexOf(ids, id);
    if i < 0 then es else SpliceOne(es, i)
  }

  ghost predicate UniqueIds(ids: seq<EntryId>) {
    forall i, j :: 0 <= i < j < |ids| ==> ids[i] != ids[j]
  }

  /** With distinct ids, corrected removal leaves no entry with the id and
      removes at most one entry. */
  lemma RemoveByIdCorrect(es: seq<Education>, id: EntryId)
    requires UniqueIds(EntryIds(es, EducationId))
    ensures var r := RemoveById(es, EntryIds(es, EducationId), id);
      && id !in EntryIds(r, EducationId)
      && |r| == if id in EntryIds(es, EducationId) then |es| - 1 else |es|
  {
    var ids := EntryIds(es, EducationId);
    var r := RemoveById(es, ids, id);
    if id in ids {
      var i := IndexOf(ids, id);
      assert r == es[..i] + es[i + 1..];
      forall k | 0 <= k < |r| ensures EntryIds(r, EducationId)[k] != id {
        if k < i {
          assert r[k] == es[k];
          assert ids[k] != ids[i];
        } else {
          assert r[k] == es[k + 1];
          assert ids[i] != ids[k + 1];
        }
      }
    }
  }

  /** The corrected experience removal: an id that is not present leaves
      the list as it was, a present one is removed. */
  lemma RemoveExperienceByIdCorrect(es: seq<Experience>, id: EntryId, i: nat)
    requires i < |es| && es[i].id == id
    requires UniqueIds(EntryIds(es, ExperienceId))
    ensures RemoveById(es, EntryIds(es, ExperienceId), id) == es[..i] + es[i + 1..]
    ensures forall u :: u !in EntryIds(es, ExperienceId) ==> RemoveById(es, EntryIds(es, ExperienceId), u) == es
  {
    var ids := EntryIds(es, ExperienceId);
    assert id in ids by { assert ids[i] == id; }
  }
}
