/**
  The profile page (`Profile`): the page's own profile record, the avatar
  initials drawn from its name, the edit dialog's field handlers and the save
  button that closes the dialog.
 */
module ProfilePage {
  import opened Text

  datatype PageProfile = PageProfile(
    name: string,
    age: string,
    gender: string,
    orientation: string,
    location: string,
    bio: string,
    occupation: string,
    education: string,
    interests: seq<string>,
    height: string,
    fitness: string,
    pets: string,
    relationshipGoal: string,
    ageRange: string,
    genderPreference: string)

  /** The record the page starts with. */
  const InitialProfile := PageProfile(
    "Alex Jordan", "28", "Non-binary", "Pansexual", "San Francisco, CA",
    "Adventure seeker, coffee enthusiast, and dog lover. Looking for genuine connections and memorable experiences.",
    "Software Engineer", "UC Berkeley", ["Hiking", "Photography", "Cooking", "Travel", "Music"],
    "5'8\"", "Regularly active", "Dog lover", "Long-term relationship", "25-35", "Any")

  /**
    The first character of each part, in order; an empty part has no first
    character (`""[0]` is `undefined`, which `join` writes as nothing).
   */
  function Heads(parts: seq<string>): (r: string)
    ensures |r| <= |parts|
  {
    if parts == [] then []
    else (if parts[0] == [] then [] else [parts[0][0]]) + Heads(parts[1..])
  }

  /**
    `name.split(' ').map(n => n[0]).join('')`. The initials are the
    characters that begin a space-separated word, in order: empty parts from
    leading, trailing or doubled spaces contribute nothing, so there are never
    more initials than parts.
   */
  function Initials(name: string): (r: string)
    ensures r == WordStarts(name, true)
    ensures |r| <= multiset(name)[' '] + 1
  {
    WordStartsAreHeads(name);
    SplitCount(name, ' ');
    Heads(Split(name, ' '))
  }

  /**
    The same initials read off the characters directly: a character is an
    initial when it is not a space and stands at the start of the name or just
    after a space. No initial is a space, and each is taken from the text.
   */
  function WordStarts(s: string, afterSpace: bool): (r: string)
    ensures ' ' !in r
    ensures multiset(r) <= multiset(s)
  {
    if s == [] then []
    else
      assert s == [s[0]] + s[1..];
      if s[0] == ' ' then WordStarts(s[1..], true)
      else (if afterSpace then [s[0]] else []) + WordStarts(s[1..], false)
  }

  lemma {:induction false} WordStartsAreHeads(s: string)
    ensures WordStarts(s, true) == Heads(Split(s, ' '))
    ensures WordStarts(s, false) == Heads(Split(s, ' ')[1..])
  {
    if s != [] {
      WordStartsAreHeads(s[1..]);
      var rest := Split(s[1..], ' ');
      if s[0] == ' ' {
        assert Split(s, ' ') == [[]] + rest;
        assert ([[]] + rest)[1..] == rest;
      } else {
        var parts := [[s[0]] + rest[0]] + rest[1..];
        assert Split(s, ' ') == parts;
        assert parts[1..] == rest[1..];
      }
    }
  }

  /** A word with no space in it has one initial, or none when it continues a word. */
  lemma {:induction false} WordStartsOfWord(w: string, b: bool)
    requires w != [] && ' ' !in w
    ensures WordStarts(w, b) == if b then [w[0]] else []
  {
    if |w| > 1 {
      WordStartsOfWord(w[1..], false);
    }
  }

  /** A word followed by a space contributes as above, and the text after the space starts a new word. */
  lemma {:induction false} WordStartsBeforeSpace(w: string, rest: string, b: bool)
    requires w != [] && ' ' !in w
    ensures WordStarts(w + [' '] + rest, b) == (if b then [w[0]] else []) + WordStarts(rest, true)
  {
    var s := w + [' '] + rest;
    assert s[0] == w[0] && s[0] != ' ';
    assert s[1..] == w[1..] + [' '] + rest;
    if |w| > 1 {
      WordStartsBeforeSpace(w[1..], rest, false);
    } else {
      assert s[1..] == [' '] + rest;
      assert s[1..][1..] == rest;
    }
  }

  /** A first and a last name give two initials, as "Alex Jordan" gives "AJ". */
  lemma InitialsOfTwoWords(first: string, last: string)
    requires first != [] && ' ' !in first
    requires last != [] && ' ' !in last
    ensures Initials(first + [' '] + last) == [first[0], last[0]]
  {
    WordStartsAreHeads(first + [' '] + last);
    WordStartsBeforeSpace(first, last, true);
    WordStartsOfWord(last, true);
  }

  /** The fields the edit dialog has an input for. */
  datatype EditableField = Name | Age | Bio | Gender | Orientation

  function Get(p: PageProfile, f: EditableField): string {
    match f
    case Name => p.name
    case Age => p.age
    case Bio => p.bio
    case Gender => p.gender
    case Orientation => p.orientation
  }

  /** The part of the record the dialog cannot edit. */
  function Unedited(p: PageProfile): PageProfile {
    p.(name := "", age := "", bio := "", gender := "", orientation := "")
  }

  /**
    `setProfile({...profile, [f]: value})`: field `f` reads `value`, every
    other editable field and the whole rest of the record are as before.
   */
  function Edit(p: PageProfile, f: EditableField, value: string): (q: PageProfile)
    ensures Get(q, f) == value
    ensures forall g :: g != f ==> Get(q, g) == Get(p, g)
    ensures Unedited(q) == Unedited(p)
  {
    match f
    case Name => p.(name := value)
    case Age => p.(age := value)
    case Bio => p.(bio := value)
    case Gender => p.(gender := value)
    case Orientation => p.(orientation := value)
  }

  /** Two records agreeing on the editable fields and on the rest are equal. */
  lemma EditableDetermineProfile(p: PageProfile, q: PageProfile)
    requires forall g :: Get(p, g) == Get(q, g)
    requires Unedited(p) == Unedited(q)
    ensures p == q
  {
    assert Get(p, Name) == Get(q, Name) && Get(p, Age) == Get(q, Age) && Get(p, Bio) == Get(q, Bio);
    assert Get(p, Gender) == Get(q, Gender) && Get(p, Orientation) == Get(q, Orientation);
    assert p.location == Unedited(p).location == Unedited(q).location == q.location;
  }

  /** Of two edits of the same field the second wins. */
  lemma LastEditWins(p: PageProfile, f: EditableField, v1: string, v2: string)
    ensures Edit(Edit(p, f, v1), f, v2) == Edit(p, f, v2)
  {
    EditableDetermineProfile(Edit(Edit(p, f, v1), f, v2), Edit(p, f, v2));
  }

  /** Edits of two different fields can be made in either order. */
  lemma EditsCommute(p: PageProfile, f: EditableField, g: EditableField, v: string, w: string)
    requires f != g
    ensures Edit(Edit(p, f, v), g, w) == Edit(Edit(p, g, w), f, v)
  {
    EditableDetermineProfile(Edit(Edit(p, f, v), g, w), Edit(Edit(p, g, w), f, v));
  }

  class ProfileView {
    var isEditing: bool
    var profile: PageProfile

    /** The dialog starts closed, over the default record. */
    constructor ()
      ensures !isEditing && profile == InitialProfile
    {
      isEditing := false;
      profile := InitialProfile;
    }

    /** The dialog's `onOpenChange`: the edit button opens it, dismissing closes it. */
    method SetEditing(open: bool)
      modifies this
      ensures isEditing == open && profile == old(profile)
    {
      isEditing := open;
    }

    /** One of the dialog's `onChange` / `onValueChange` handlers. */
    method HandleEdit(f: EditableField, value: string)
      modifies this
      ensures profile == Edit(old(profile), f, value)
      ensures isEditing == old(isEditing)
    {
      profile := Edit(profile, f, value);
    }

    /** `handleSave`: the dialog closes and the record stays as edited. */
    method HandleSave()
      modifies this
      ensures !isEditing && profile == old(profile)
    {
      isEditing := false;
    }
  }
}
