/**
  The signed-in user's profile record (`UserProfile` of the session store) and
  the two ways the front end rewrites it: one string field at a time, and by
  spreading a partial record over it (`{ ...user, ...updates }`).
 */
module Profiles {
  import opened Wrappers

  datatype UserProfile = UserProfile(
    id: string,
    name: string,
    email: string,
    age: string,
    gender: string,
    orientation: string,
    location: string,
    bio: string,
    occupation: string,
    education: string,
    interests: seq<string>,
    height: string,
    fitness: string,
    pets: string,
    relationshipGoal: string,
    ageRange: string,
    genderPreference: string,
    avatar: Option<string>)

  /** The keys of `UserProfile` whose value is a string. */
  datatype Field =
    | Id | Name | Email | Age | Gender | Orientation | Location | Bio | Occupation
    | Education | Height | Fitness | Pets | RelationshipGoal | AgeRange | GenderPreference

  /** `p[field]` for a string field. */
  function Get(p: UserProfile, field: Field): string {
    match field
    case Id => p.id
    case Name => p.name
    case Email => p.email
    case Age => p.age
    case Gender => p.gender
    case Orientation => p.orientation
    case Location => p.location
    case Bio => p.bio
    case Occupation => p.occupation
    case Education => p.education
    case Height => p.height
    case Fitness => p.fitness
    case Pets => p.pets
    case RelationshipGoal => p.relationshipGoal
    case AgeRange => p.ageRange
    case GenderPreference => p.genderPreference
  }

  /**
    `{ ...p, [field]: value }`: `field` now reads `value`, and every other
    field, the interests and the avatar read as before.
   */
  function With(p: UserProfile, field: Field, value: string): (q: UserProfile)
    ensures Get(q, field) == value
    ensures forall g :: g != field ==> Get(q, g) == Get(p, g)
    ensures q.interests == p.interests && q.avatar == p.avatar
  {
    match field
    case Id => p.(id := value)
    case Name => p.(name := value)
    case Email => p.(email := value)
    case Age => p.(age := value)
    case Gender => p.(gender := value)
    case Orientation => p.(orientation := value)
    case Location => p.(location := value)
    case Bio => p.(bio := value)
    case Occupation => p.(occupation := value)
    case Education => p.(education := value)
    case Height => p.(height := value)
    case Fitness => p.(fitness := value)
    case Pets => p.(pets := value)
    case RelationshipGoal => p.(relationshipGoal := value)
    case AgeRange => p.(ageRange := value)
    case GenderPreference => p.(genderPreference := value)
  }

  /** Two profiles that agree on every field, the interests and the avatar are equal. */
  lemma FieldsDetermineProfile(p: UserProfile, q: UserProfile)
    requires forall g :: Get(p, g) == Get(q, g)
    requires p.interests == q.interests && p.avatar == q.avatar
    ensures p == q
  {
    assert Get(p, Id) == Get(q, Id) && Get(p, Name) == Get(q, Name) && Get(p, Email) == Get(q, Email);
    assert Get(p, Age) == Get(q, Age) && Get(p, Gender) == Get(q, Gender);
    assert Get(p, Orientation) == Get(q, Orientation) && Get(p, Location) == Get(q, Location);
    assert Get(p, Bio) == Get(q, Bio) && Get(p, Occupation) == Get(q, Occupation);
    assert Get(p, Education) == Get(q, Education) && Get(p, Height) == Get(q, Height);
    assert Get(p, Fitness) == Get(q, Fitness) && Get(p, Pets) == Get(q, Pets);
    assert Get(p, RelationshipGoal) == Get(q, RelationshipGoal) && Get(p, AgeRange) == Get(q, AgeRange);
    assert Get(p, GenderPreference) == Get(q, GenderPreference);
  }

  /** Setting a field to the value it already has changes nothing. */
  lemma WithOwnValue(p: UserProfile, field: Field)
    ensures With(p, field, Get(p, field)) == p
  {
    FieldsDetermineProfile(With(p, field, Get(p, field)), p);
  }

  /**
    `Partial<UserProfile>`: a key that is present carries `Some` value; an
    absent key is `None`.
   */
  datatype Patch = Patch(
    id: Option<string>,
    name: Option<string>,
    email: Option<string>,
    age: Option<string>,
    gender: Option<string>,
    orientation: Option<string>,
    location: Option<string>,
    bio: Option<string>,
    occupation: Option<string>,
    education: Option<string>,
    interests: Option<seq<string>>,
    height: Option<string>,
    fitness: Option<string>,
    pets: Option<string>,
    relationshipGoal: Option<string>,
    ageRange: Option<string>,
    genderPreference: Option<string>,
    avatar: Option<string>)

  /** The patch with no key at all. */
  const EmptyPatch := Patch(None, None, None, None, None, None, None, None, None, None,
                            None, None, None, None, None, None, None, None)

  /** The value a patch supplies for a string field, if any. */
  function Supplied(u: Patch, field: Field): Option<string> {
    match field
    case Id => u.id
    case Name => u.name
    case Email => u.email
    case Age => u.age
    case Gender => u.gender
    case Orientation => u.orientation
    case Location => u.location
    case Bio => u.bio
    case Occupation => u.occupation
    case Education => u.education
    case Height => u.height
    case Fitness => u.fitness
    case Pets => u.pets
    case RelationshipGoal => u.relationshipGoal
    case AgeRange => u.ageRange
    case GenderPreference => u.genderPreference
  }

  /**
    A whole profile passed where a partial one is expected: every key is
    present except `avatar` when the profile has none (the key is then missing
    from the object).
   */
  function AsPatch(p: UserProfile): (u: Patch)
    ensures forall g :: Supplied(u, g) == Some(Get(p, g))
    ensures u.interests == Some(p.interests) && u.avatar == p.avatar
  {
    Patch(Some(p.id), Some(p.name), Some(p.email), Some(p.age), Some(p.gender), Some(p.orientation),
          Some(p.location), Some(p.bio), Some(p.occupation), Some(p.education), Some(p.interests),
          Some(p.height), Some(p.fitness), Some(p.pets), Some(p.relationshipGoal), Some(p.ageRange),
          Some(p.genderPreference), p.avatar)
  }

  /**
    `{ ...p, ...u }`: every field the patch supplies takes the supplied value,
    every other field keeps the value it had in `p`.
   */
  function Merge(p: UserProfile, u: Patch): (q: UserProfile)
    ensures q.interests == u.interests.GetOr(p.interests)
    ensures q.avatar == if u.avatar.Some? then u.avatar else p.avatar
  {
    var q := UserProfile(
      u.id.GetOr(p.id), u.name.GetOr(p.name), u.email.GetOr(p.email), u.age.GetOr(p.age),
      u.gender.GetOr(p.gender), u.orientation.GetOr(p.orientation), u.location.GetOr(p.location),
      u.bio.GetOr(p.bio), u.occupation.GetOr(p.occupation), u.education.GetOr(p.education),
      u.interests.GetOr(p.interests), u.height.GetOr(p.height), u.fitness.GetOr(p.fitness),
      u.pets.GetOr(p.pets), u.relationshipGoal.GetOr(p.relationshipGoal), u.ageRange.GetOr(p.ageRange),
      u.genderPreference.GetOr(p.genderPreference), if u.avatar.Some? then u.avatar else p.avatar);
    q
  }

  /** Each string field of `{ ...p, ...u }` is the one `u` supplies, or else the one of `p`. */
  lemma MergeField(p: UserProfile, u: Patch, g: Field)
    ensures Get(Merge(p, u), g) == Supplied(u, g).GetOr(Get(p, g))
  {
    match g
    case Id =>
    case Name =>
    case Email =>
    case Age =>
    case Gender =>
    case Orientation =>
    case Location =>
    case Bio =>
    case Occupation =>
    case Education =>
    case Height =>
    case Fitness =>
    case Pets =>
    case RelationshipGoal =>
    case AgeRange =>
    case GenderPreference =>
  }

  /**
    `{ ...p, ...u }` overwrites exactly the fields `u` supplies: a supplied
    field takes the supplied value, every other field keeps its value in `p`.
   */
  lemma MergeOverwritesSupplied(p: UserProfile, u: Patch)
    ensures forall g :: Get(Merge(p, u), g) == Supplied(u, g).GetOr(Get(p, g))
    ensures forall g :: Supplied(u, g).None? ==> Get(Merge(p, u), g) == Get(p, g)
  {
    forall g ensures Get(Merge(p, u), g) == Supplied(u, g).GetOr(Get(p, g)) {
      MergeField(p, u, g);
    }
  }

  /** Spreading a patch with no keys leaves the profile as it was. */
  lemma MergeEmpty(p: UserProfile)
    ensures Merge(p, EmptyPatch) == p
  {
    MergeOverwritesSupplied(p, EmptyPatch);
    FieldsDetermineProfile(Merge(p, EmptyPatch), p);
  }

  /** Spreading the same patch twice is spreading it once. */
  lemma MergeIdempotent(p: UserProfile, u: Patch)
    ensures Merge(Merge(p, u), u) == Merge(p, u)
  {
    MergeOverwritesSupplied(p, u);
    MergeOverwritesSupplied(Merge(p, u), u);
    FieldsDetermineProfile(Merge(Merge(p, u), u), Merge(p, u));
  }

  /**
    Spreading a whole profile `v` over `p` gives `v`, except that `p` keeps its
    avatar when `v` has none.
   */
  lemma MergeWhole(p: UserProfile, v: UserProfile)
    ensures Merge(p, AsPatch(v)) == v.(avatar := if v.avatar.Some? then v.avatar else p.avatar)
  {
    MergeOverwritesSupplied(p, AsPatch(v));
    FieldsDetermineProfile(Merge(p, AsPatch(v)), v.(avatar := if v.avatar.Some? then v.avatar else p.avatar));
  }
}
