/**
  The profile editing form (`ProfileEditor`): a working copy `formData` of
  the profile, the text `newInterest` typed into the interest box, and the
  handlers that change them.
 */
module Editor {
  import opened Text
  import opened Profiles

  /** No interest appears twice. */
  predicate Distinct(s: seq<string>) {
    forall i, j :: 0 <= i < j < |s| ==> s[i] != s[j]
  }

  /**
    The guard of `addInterest`: an accepted input trims to a new, non-empty
    interest that is already its own trim; a rejected one is whitespace only
    or already listed.
   */
  function Accepts(interests: seq<string>, input: string): (ok: bool)
    ensures ok ==> Trim(input) != [] && Trim(input) !in interests && Trim(Trim(input)) == Trim(input)
    ensures !ok ==> IsBlank(input) || Trim(input) in interests
  {
    TrimIdempotent(input);
    !IsBlank(input) && Trim(input) !in interests
  }

  /**
    Adding an interest: an accepted input is appended, trimmed, after all the
    old items; a rejected input leaves the list as it was. A list without
    duplicates keeps none.
   */
  function WithInterest(interests: seq<string>, input: string): (r: seq<string>)
    ensures Accepts(interests, input) ==>
      |r| == |interests| + 1 && r[..|interests|] == interests && r[|interests|] == Trim(input)
    ensures !Accepts(interests, input) ==> r == interests
    ensures Distinct(interests) ==> Distinct(r)
  {
    if Accepts(interests, input) then
      assert (interests + [Trim(input)])[..|interests|] == interests;
      interests + [Trim(input)]
    else interests
  }

  /**
    `interests.filter(i => i !== x)`: no `x` is left, and every other item
    keeps its number of occurrences.
   */
  function Without(s: seq<string>, x: string): (r: seq<string>)
    ensures x !in r
    ensures multiset(r) == multiset(s)[x := 0]
  {
    if s == [] then []
    else
      assert s == [s[0]] + s[1..];
      (if s[0] == x then [] else [s[0]]) + Without(s[1..], x)
  }

  /** Filtering a concatenation filters each part: the remaining items keep their order. */
  lemma {:induction false} WithoutConcat(a: seq<string>, b: seq<string>, x: string)
    ensures Without(a + b, x) == Without(a, x) + Without(b, x)
  {
    if a != [] {
      assert (a + b)[0] == a[0] && (a + b)[1..] == a[1..] + b;
      WithoutConcat(a[1..], b, x);
      var head := if a[0] == x then [] else [a[0]];
      assert Without(a + b, x) == head + (Without(a[1..], x) + Without(b, x));
    } else {
      assert a + b == b;
    }
  }

  /** Removing an absent value changes nothing. */
  lemma {:induction false} WithoutAbsent(s: seq<string>, x: string)
    requires x !in s
    ensures Without(s, x) == s
  {
    if s != [] {
      WithoutAbsent(s[1..], x);
    }
  }

  /** Removing the same value twice is removing it once. */
  lemma WithoutIdempotent(s: seq<string>, x: string)
    ensures Without(Without(s, x), x) == Without(s, x)
  {
    WithoutAbsent(Without(s, x), x);
  }

  /** A list without duplicates keeps none after an interest is removed. */
  lemma {:induction false} WithoutKeepsDistinct(s: seq<string>, x: string)
    requires Distinct(s)
    ensures Distinct(Without(s, x))
  {
    if s != [] {
      WithoutKeepsDistinct(s[1..], x);
      var rest := Without(s[1..], x);
      assert s[0] !in s[1..];
      assert multiset(s[1..])[s[0]] == 0;
      assert s[0] !in rest by {
        assert multiset(rest)[s[0]] <= multiset(s[1..])[s[0]];
      }
    }
  }

  class ProfileEditor {
    var formData: UserProfile
    var newInterest: string

    /** `useState(profile)` and `useState("")`. */
    constructor (profile: UserProfile)
      ensures formData == profile && newInterest == ""
    {
      formData := profile;
      newInterest := "";
    }

    /** `handleInputChange(field, value)`: only `field` of the form changes. */
    method HandleInputChange(field: Field, value: string)
      modifies this
      ensures formData == With(old(formData), field, value)
      ensures newInterest == old(newInterest)
    {
      formData := With(formData, field, value);
    }

    /** Typing into the interest box. */
    method SetNewInterest(value: string)
      modifies this
      ensures newInterest == value && formData == old(formData)
    {
      newInterest := value;
    }

    /**
      `addInterest`: an accepted input is appended and the box is cleared; a
      blank or already listed input changes neither the list nor the box.
     */
    method AddInterest()
      modifies this
      ensures formData == old(formData).(interests := WithInterest(old(formData.interests), old(newInterest)))
      ensures newInterest == if Accepts(old(formData.interests), old(newInterest)) then "" else old(newInterest)
      ensures Distinct(old(formData.interests)) ==> Distinct(formData.interests)
    {
      var trimmed := Trim(newInterest);
      if trimmed != [] && trimmed !in formData.interests {
        formData := formData.(interests := formData.interests + [trimmed]);
        newInterest := "";
      }
    }

    /** Enter in the interest box adds the interest; any other key does nothing. */
    method HandleInterestKey(key: string)
      modifies this
      ensures key == "Enter" ==>
        formData == old(formData).(interests := WithInterest(old(formData.interests), old(newInterest)))
        && newInterest == if Accepts(old(formData.interests), old(newInterest)) then "" else old(newInterest)
      ensures key != "Enter" ==> formData == old(formData) && newInterest == old(newInterest)
    {
      if key == "Enter" {
        AddInterest();
      }
    }

    /** `removeInterest(interest)`: every occurrence goes, the rest of the form stays. */
    method RemoveInterest(interest: string)
      modifies this
      ensures formData == old(formData).(interests := Without(old(formData.interests), interest))
      ensures newInterest == old(newInterest)
      ensures Distinct(old(formData.interests)) ==> Distinct(formData.interests)
    {
      if Distinct(formData.interests) {
        WithoutKeepsDistinct(formData.interests, interest);
      }
      formData := formData.(interests := Without(formData.interests, interest));
    }

    /** `handleSubmit`: the whole current form is what `onSave` receives. */
    method HandleSubmit() returns (saved: Patch)
      ensures saved == AsPatch(formData)
    {
      saved := AsPatch(formData);
    }
  }
}
