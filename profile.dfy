/** The profile page: the age shown from the birth date, the avatar
    initials, and the edit dialog that works on a copy of the profile. */
module Profile {
  import opened Wrappers
  import opened Seqs
  import opened Text
  import opened Dates

  datatype UserProfile = UserProfile(
    id: String,
    name: String,
    email: String,
    phone: String,
    location: String,
    bio: String,
    occupation: String,
    birthDate: String,
    joinDate: String,
    avatar: String)

  // ---------------------------------------------------------------------
  // Age

  /** Completed years of life on `today`: the year difference, less one while
      this year's birthday is still ahead. */
  function Age(birth: Civil, today: Civil): int {
    today.year - birth.year - (if CivilBefore(today, Civil(today.year, birth.month, birth.day)) then 1 else 0)
  }

  /** The age counts birthdays: `k` years have been completed exactly when
      the `k`-th anniversary of the birth date is not after today. */
  lemma AgeCountsBirthdays(birth: Civil, today: Civil, k: int)
    ensures k <= Age(birth, today) <==> !CivilBefore(today, Civil(birth.year + k, birth.month, birth.day))
  {
    var a := Age(birth, today);
    if k == a + 1 {
      assert CivilBefore(today, Civil(birth.year + k, birth.month, birth.day));
    }
  }

  /** The age is the year difference or one less, and on the birthday itself
      it is the year difference, since the day test is strict. */
  lemma AgeBounds(birth: Civil, today: Civil)
    ensures today.year - birth.year - 1 <= Age(birth, today) <= today.year - birth.year
    ensures today.month == birth.month && today.day == birth.day ==> Age(birth, today) == today.year - birth.year
    ensures CivilBefore(Civil(today.year, today.month, today.day), Civil(today.year, birth.month, birth.day)) ==>
              Age(birth, today) == today.year - birth.year - 1
  {
  }

  /** `calculateAge`: the birth date string is read as a UTC date (the
      timezone offset is 0 here) and today's date comes from the clock
      reading `now`; a birth date that does not parse gives NaN, here
      `None`. */
  method CalculateAge(birthDate: String, now: int) returns (age: Option<int>)
    ensures ParseDay(birthDate).None? ==> age == None
    ensures ParseDay(birthDate).Some? ==>
              age == Some(Age(CivilOf(ParseDay(birthDate).value), CivilOf(DayOf(now))))
  {
    var parsed := ParseDay(birthDate);
    if parsed.None? {
      return None;
    }
    var birth := CivilOf(parsed.value);
    var today := CivilOf(DayOf(now));
    ghost var expected := Age(birth, today);
    var years := today.year - birth.year;
    var monthDiff := today.month - birth.month;
    if monthDiff < 0 || (monthDiff == 0 && today.day < birth.day) {
      years := years - 1;
    }
    assert years == expected;
    age := Some(years);
  }

  // ---------------------------------------------------------------------
  // Avatar initials

  predicate NonEmpty(s: String) {
    s != []
  }

  /** `pieces.map(n => n[0]).join('')`: an empty piece yields `undefined`,
      which `join` prints as nothing. */
  function FirstChars(pieces: seq<String>): (r: String)
    ensures |r| == |Filter(pieces, NonEmpty)|
    ensures forall i :: 0 <= i < |r| ==> r[i] == Filter(pieces, NonEmpty)[i][0]
  {
    if pieces == [] then []
    else
      assert pieces == [pieces[0]] + pieces[1..];
      (if pieces[0] == [] then [] else [pieces[0][0]]) + FirstChars(pieces[1..])
  }

  /** The avatar text: the first character of every space-separated piece of
      the name. */
  function Initials(name: String): String {
    FirstChars(Split(name, ' '))
  }

  /** For a name made of words joined by single spaces, the initials are the
      words' first letters, one per word. */
  lemma InitialsOfWords(words: seq<String>)
    requires |words| >= 1
    requires forall i :: 0 <= i < |words| ==> words[i] != [] && ' ' !in words[i]
    ensures Initials(Join(words, " ")) == seq(|words|, i requires 0 <= i < |words| => words[i][0])
  {
    SplitJoin(words, ' ');
    FirstCharsOfWords(words);
  }

  lemma {:induction false} FirstCharsOfWords(words: seq<String>)
    requires forall i :: 0 <= i < |words| ==> words[i] != []
    ensures FirstChars(words) == seq(|words|, i requires 0 <= i < |words| => words[i][0])
  {
    if words != [] {
      FirstCharsOfWords(words[1..]);
    }
  }

  // ---------------------------------------------------------------------
  // The profile and its editor copy

  /** The page's state cells. */
  class ProfilePage {
    var profile: UserProfile
    var editProfile: UserProfile
    var isEditingProfile: bool

    constructor(initial: UserProfile)
      ensures profile == initial && editProfile == initial && !isEditingProfile
    {
      profile := initial;
      editProfile := initial;
      isEditingProfile := false;
    }

    /** The "Editar" button: the dialog opens on a fresh copy of the profile. */
    method OpenEditor()
      modifies this
      ensures editProfile == profile == old(profile) && isEditingProfile
    {
      editProfile := profile;
      isEditingProfile := true;
    }

    /** A field of the dialog changed. */
    method SetEditProfile(p: UserProfile)
      modifies this
      ensures editProfile == p && profile == old(profile) && isEditingProfile == old(isEditingProfile)
    {
      editProfile := p;
    }

    /** "Cancelar" or closing the dialog: the profile is left as it was. */
    method CloseEditor()
      modifies this
      ensures !isEditingProfile && profile == old(profile) && editProfile == old(editProfile)
    {
      isEditingProfile := false;
    }

    /** `saveProfile`: the edited copy becomes the profile. */
    method SaveProfile()
      modifies this
      ensures profile == old(editProfile) && editProfile == old(editProfile) && !isEditingProfile
    {
      profile := editProfile;
      isEditingProfile := false;
    }
  }
}
