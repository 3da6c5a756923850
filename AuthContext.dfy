/**
  The session store (`AuthProvider`): the signed-in user, a loading flag, and
  the browser's `localStorage`, in which the user record is kept under the key
  `rizzmate_user`.

  `JSON.stringify` / `JSON.parse` are a `Serializer` given to the store: the
  model only assumes that a stringified profile is a non-empty text that parses
  back to the same profile. The pure functions `Restored`, `LoggedIn`,
  `LoggedOut` and `Updated` give the state after each operation; the class
  `AuthProvider` performs the operations on its fields, step by step, and
  its methods are proved to reach exactly those states.
 */
module Auth {
  import opened Wrappers
  import opened Text
  import opened Profiles

  const StorageKey := "rizzmate_user"

  /** What `JSON.parse` makes of a stored text: it throws, it reads `null`, or it reads a profile. */
  datatype Decoded = Malformed | JsonNull | Record(profile: UserProfile)

  datatype Serializer = Serializer(stringify: UserProfile -> string, parse: string -> Decoded)

  /** What the store relies on from JSON: a stringified profile is non-empty and parses back to itself. */
  ghost predicate IsJson(json: Serializer) {
    forall u :: json.stringify(u) != "" && json.parse(json.stringify(u)) == Record(u)
  }

  /** `localStorage.getItem(key)`: `None` stands for `null`. */
  function GetItem(storage: map<string, string>, key: string): (r: Option<string>)
    ensures r.Some? <==> key in storage
    ensures r.Some? ==> r.value == storage[key]
  {
    if key in storage then Some(storage[key]) else None
  }

  /** `c.toUpperCase()` restricted to ASCII letters; every other character is kept. */
  function UpperCase(c: char): (r: char)
    ensures 'a' <= c <= 'z' ==> 'A' <= r <= 'Z' && r as int - 'A' as int == c as int - 'a' as int
    ensures !('a' <= c <= 'z') ==> r == c
    ensures !('a' <= r <= 'z')
  {
    if 'a' <= c <= 'z' then (c as int - 'a' as int + 'A' as int) as char else c
  }

  /**
    `email.split('@')[0]`: the longest prefix of `email` without an `@`; it
    stops at the first `@`, or takes the whole address when there is none.
   */
  function LocalPart(email: string): (r: string)
    ensures r <= email && '@' !in r
    ensures |r| < |email| ==> email[|r|] == '@'
  {
    FirstPartOfSplit(email, '@');
    Split(email, '@')[0]
  }

  /**
    The display name `login` derives from the address: the local part with its
    first character upper-cased and the rest unchanged. It is as long as the
    local part, and empty exactly when the address is empty or starts with `@`.
   */
  function DisplayName(email: string): (r: string)
    ensures |r| == |LocalPart(email)|
    ensures r == [] <==> email == [] || email[0] == '@'
    ensures r != [] ==> r[0] == UpperCase(email[0]) && r[1..] == LocalPart(email)[1..]
  {
    var local := LocalPart(email);
    if local == [] then [] else [UpperCase(local[0])] + local[1..]
  }

  /** The default profile `login` creates; `id` is the clock reading `Date.now().toString()`. */
  function NewUser(email: string, id: string): (u: UserProfile)
    ensures u.id == id && u.email == email && u.name == DisplayName(email)
    ensures u.avatar.None?
  {
    UserProfile(
      id, DisplayName(email), email, "25", "Prefer not to say", "Straight", "San Francisco, CA",
      "Hello! I'm new to RizzMate and looking forward to meeting new people.",
      "Professional", "College Graduate", ["Music", "Travel", "Food"], "5'6\"",
      "Occasionally active", "No pets", "Long-term relationship", "22-30", "Any", None)
  }

  /** Every key other than the store's own is present in `t` exactly when in `s`, with the same text. */
  ghost predicate OtherKeysKept(s: map<string, string>, t: map<string, string>) {
    && (forall k :: k != StorageKey ==> (k in t <==> k in s))
    && (forall k :: k != StorageKey && k in s ==> t[k] == s[k])
  }

  /** The store's state: `user`, `isLoading` and the contents of `localStorage`. */
  datatype Session = Session(user: Option<UserProfile>, isLoading: bool, storage: map<string, string>)

  /** The state when the provider mounts: no user, loading, whatever storage holds. */
  function Mounted(storage: map<string, string>): Session {
    Session(None, true, storage)
  }

  /** `!!user`. */
  predicate IsAuthenticated(s: Session) {
    s.user.Some?
  }

  /**
    `checkAuth`: a stored text that is neither missing nor empty is parsed; a
    profile becomes the user, `null` clears the user, and a text that does not
    parse is removed from storage. Loading ends in every case.
   */
  function Restored(s: Session, json: Serializer): (t: Session)
    ensures !t.isLoading
  {
    var stored := GetItem(s.storage, StorageKey);
    if stored.None? || stored.value == "" then s.(isLoading := false)
    else match json.parse(stored.value)
      case Record(p) => s.(user := Some(p), isLoading := false)
      case JsonNull => s.(user := None, isLoading := false)
      case Malformed => s.(storage := s.storage - {StorageKey}, isLoading := false)
  }

  /** `login(email, password)`: the password plays no part; the new user is stored. */
  function LoggedIn(s: Session, json: Serializer, email: string, id: string): (t: Session)
    ensures t.user == Some(NewUser(email, id)) && t.isLoading == s.isLoading
    ensures StorageKey in t.storage && t.storage[StorageKey] == json.stringify(t.user.value)
    ensures OtherKeysKept(s.storage, t.storage)
  {
    var u := NewUser(email, id);
    s.(user := Some(u), storage := s.storage[StorageKey := json.stringify(u)])
  }

  /** `logout()`: no user, and nothing stored under the key. */
  function LoggedOut(s: Session): (t: Session)
    ensures !IsAuthenticated(t) && StorageKey !in t.storage && t.isLoading == s.isLoading
    ensures OtherKeysKept(s.storage, t.storage)
  {
    s.(user := None, storage := s.storage - {StorageKey})
  }

  /** `updateProfile(updates)`: nothing without a user; otherwise the merged record is the user and is stored. */
  function Updated(s: Session, json: Serializer, updates: Patch): (t: Session)
    ensures !IsAuthenticated(s) ==> t == s
    ensures IsAuthenticated(s) ==>
      && t.user == Some(Merge(s.user.value, updates)) && t.isLoading == s.isLoading
      && StorageKey in t.storage && t.storage[StorageKey] == json.stringify(t.user.value)
    ensures OtherKeysKept(s.storage, t.storage)
  {
    if s.user.None? then s
    else
      var u := Merge(s.user.value, updates);
      s.(user := Some(u), storage := s.storage[StorageKey := json.stringify(u)])
  }

  /** Whenever a user is signed in, storage holds a non-empty text that parses back to that user. */
  ghost predicate Persisted(s: Session, json: Serializer) {
    s.user.Some? ==>
      StorageKey in s.storage && s.storage[StorageKey] != "" && json.parse(s.storage[StorageKey]) == Record(s.user.value)
  }

  /** Initialisation ends loading whether the stored value is missing, empty, a profile, `null` or corrupt. */
  lemma RestoredEndsLoading(storage: map<string, string>, json: Serializer)
    ensures !Restored(Mounted(storage), json).isLoading
  {
  }

  /** A missing or empty stored value leaves storage alone and nobody signed in. */
  lemma RestoredFromNothing(storage: map<string, string>, json: Serializer)
    requires StorageKey !in storage || storage[StorageKey] == ""
    ensures Restored(Mounted(storage), json) == Session(None, false, storage)
  {
  }

  /** A stored value that does not parse is removed, and nobody is signed in. */
  lemma RestoredFromCorrupt(storage: map<string, string>, json: Serializer)
    requires StorageKey in storage && storage[StorageKey] != ""
    requires json.parse(storage[StorageKey]) == Malformed
    ensures Restored(Mounted(storage), json) == Session(None, false, storage - {StorageKey})
  {
  }

  /** A stored value that parses to a profile makes that profile the user, and storage is kept. */
  lemma RestoredFromRecord(storage: map<string, string>, json: Serializer, p: UserProfile)
    requires StorageKey in storage && storage[StorageKey] != ""
    requires json.parse(storage[StorageKey]) == Record(p)
    ensures Restored(Mounted(storage), json) == Session(Some(p), false, storage)
  {
  }

  /** Logging out twice is logging out once. */
  lemma LogoutIdempotent(s: Session)
    ensures LoggedOut(LoggedOut(s)) == LoggedOut(s)
  {
  }

  /**
    `updateProfile` with a user overwrites exactly the supplied fields: every
    string field the update supplies takes its value, every other one keeps it.
   */
  lemma UpdateOverwritesSupplied(s: Session, json: Serializer, updates: Patch)
    requires IsAuthenticated(s)
    ensures var t := Updated(s, json, updates);
      IsAuthenticated(t)
      && (forall g :: Supplied(updates, g).Some? ==> Get(t.user.value, g) == Supplied(updates, g).value)
      && (forall g :: Supplied(updates, g).None? ==> Get(t.user.value, g) == Get(s.user.value, g))
      && t.user.value.interests == updates.interests.GetOr(s.user.value.interests)
  {
    MergeOverwritesSupplied(s.user.value, updates);
  }

  /** Every operation keeps storage in step with the signed-in user. */
  lemma OperationsKeepPersisted(s: Session, json: Serializer, email: string, id: string, updates: Patch)
    requires IsJson(json) && Persisted(s, json)
    ensures Persisted(Restored(s, json), json)
    ensures Persisted(LoggedIn(s, json, email, id), json)
    ensures Persisted(LoggedOut(s), json)
    ensures Persisted(Updated(s, json, updates), json)
  {
    var u := NewUser(email, id);
    assert json.stringify(u) != "" && json.parse(json.stringify(u)) == Record(u);
    if s.user.Some? {
      var m := Merge(s.user.value, updates);
      assert json.stringify(m) != "" && json.parse(json.stringify(m)) == Record(m);
    }
  }

  /**
    Reloading the application restores the signed-in user: when storage is in
    step with the user, `checkAuth` on a fresh mount over that storage finds
    the same user again.
   */
  lemma ReloadRestoresUser(s: Session, json: Serializer)
    requires Persisted(s, json) && IsAuthenticated(s)
    ensures Restored(Mounted(s.storage), json) == Session(s.user, false, s.storage)
  {
  }

  /** The user who logs in is the user a reload finds. */
  lemma LoginSurvivesReload(s: Session, json: Serializer, email: string, id: string)
    requires IsJson(json)
    ensures Restored(Mounted(LoggedIn(s, json, email, id).storage), json).user == Some(NewUser(email, id))
  {
    var u := NewUser(email, id);
    assert json.stringify(u) != "" && json.parse(json.stringify(u)) == Record(u);
  }

  /** After logout a reload finds nobody. */
  lemma LogoutSurvivesReload(s: Session, json: Serializer)
    ensures !IsAuthenticated(Restored(Mounted(LoggedOut(s).storage), json))
  {
  }

  /** The provider component, its state fields updated in place. */
  class AuthProvider {
    var user: Option<UserProfile>
    var isLoading: bool
    var storage: map<string, string>
    const json: Serializer

    function State(): Session
      reads this
    {
      Session(user, isLoading, storage)
    }

    ghost predicate Valid()
      reads this
    {
      IsJson(json) && Persisted(State(), json)
    }

    /** Mounting: `useState(null)`, `useState(true)`, over the storage the browser already holds. */
    constructor (json: Serializer, storage: map<string, string>)
      requires IsJson(json)
      ensures Valid() && this.json == json
      ensures State() == Mounted(storage)
    {
      this.json := json;
      this.storage := storage;
      user := None;
      isLoading := true;
    }

    /** The `isAuthenticated` flag of the context value. */
    function IsAuthenticated(): (b: bool)
      reads this
      ensures b <==> user.Some?
    {
      user.Some?
    }

    method CheckAuth()
      requires Valid()
      modifies this
      ensures Valid()
      ensures State() == Restored(old(State()), json)
    {
      var stored := GetItem(storage, StorageKey);
      if stored.Some? && stored.value != "" {
        match json.parse(stored.value)
        case Record(p) =>
          user := Some(p);
        case JsonNull =>
          user := None;
        case Malformed =>
          storage := storage - {StorageKey};
      }
      isLoading := false;
    }

    /** `login`: `id` is the clock reading the source takes with `Date.now()`. */
    method Login(email: string, password: string, id: string)
      requires Valid()
      modifies this
      ensures Valid()
      ensures State() == LoggedIn(old(State()), json, email, id)
    {
      var newUser := NewUser(email, id);
      user := Some(newUser);
      storage := storage[StorageKey := json.stringify(newUser)];
    }

    method Logout()
      requires Valid()
      modifies this
      ensures Valid()
      ensures State() == LoggedOut(old(State()))
    {
      user := None;
      storage := storage - {StorageKey};
    }

    method UpdateProfile(updates: Patch)
      requires Valid()
      modifies this
      ensures Valid()
      ensures State() == Updated(old(State()), json, updates)
    {
      if user.None? {
        return;
      }
      var updatedUser := Merge(user.value, updates);
      user := Some(updatedUser);
      storage := storage[StorageKey := json.stringify(updatedUser)];
    }
  }
}
