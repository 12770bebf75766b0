/** The detailed profile page: first and last name are two views of the one
    `name` string, and every other input edits a single field of the
    profile record. Saving only logs, so it is not modelled. */
module ProfileSettings {
  import opened Wrappers
  import opened Text
  import Types

  /** `user.name.split(" ")[0]`: the name up to its first space. */
  function FirstName(name: string): (r: string)
    ensures ' ' !in r
    ensures r <= name
  {
    SplitHead(name, ' ');
    Split(name, ' ')[0]
  }

  /** `user.name.split(" ").slice(1).join(" ")`: everything after the first
      space, spaces included. */
  function LastName(name: string): string {
    Join(Split(name, ' ')[1..], ' ')
  }

  /** The two fields partition the name around its first space; a name
      without a space is all first name. */
  lemma NameParts(name: string)
    ensures ' ' !in name ==> FirstName(name) == name && LastName(name) == ""
    ensures ' ' in name ==>
      var i := FirstIndex(name, ' ');
      FirstName(name) == name[..i] && LastName(name) == name[i + 1..]
    ensures ' ' in name ==> name == FirstName(name) + [' '] + LastName(name)
  {
    if ' ' in name {
      var i := FirstIndex(name, ' ');
      var first, rest := name[..i], name[i + 1..];
      assert name == first + [' '] + rest;
      SplitCons(first, ' ', rest);
      assert ([first] + Split(rest, ' '))[1..] == Split(rest, ' ');
      JoinSplit(rest, ' ');
    }
  }

  /** The first-name input's `onChange`: the new first name, a space, and
      the current last name. */
  function WithFirstName(name: string, v: string): string {
    v + [' '] + LastName(name)
  }

  /** The last-name input's `onChange`: the current first name, a space,
      and the new last name. */
  function WithLastName(name: string, v: string): string {
    FirstName(name) + [' '] + v
  }

  /** Both fields read back from `first + " " + last` when `first` has no space. */
  lemma SplitAtFirstSpace(first: string, last: string)
    requires ' ' !in first
    ensures FirstName(first + [' '] + last) == first
    ensures LastName(first + [' '] + last) == last
  {
    var s := first + [' '] + last;
    assert s[..|first|] == first;
    FirstIndexUnique(s, ' ', |first|);
    assert s[|first| + 1..] == last;
    NameParts(s);
  }

  /** Typing a space-free first name shows it back and keeps the last name. */
  lemma WithFirstNameReadsBack(name: string, v: string)
    requires ' ' !in v
    ensures FirstName(WithFirstName(name, v)) == v
    ensures LastName(WithFirstName(name, v)) == LastName(name)
  {
    SplitAtFirstSpace(v, LastName(name));
  }

  /** Typing any last name shows it back and keeps the first name. */
  lemma WithLastNameReadsBack(name: string, v: string)
    ensures FirstName(WithLastName(name, v)) == FirstName(name)
    ensures LastName(WithLastName(name, v)) == v
  {
    SplitAtFirstSpace(FirstName(name), v);
  }

  /** Re-entering the shown value changes nothing when the name has a space,
      and appends a trailing space when it has none. */
  lemma ReenteringShownValue(name: string)
    ensures WithFirstName(name, FirstName(name)) == if ' ' in name then name else name + " "
    ensures WithLastName(name, LastName(name)) == if ' ' in name then name else name + " "
  {
    NameParts(name);
  }

  /** The page's `user` state: the mock user spread with the extra fields. */
  datatype Profile = Profile(
    name: string,
    email: string,
    avatarUrl: Option<string>,
    bio: string,
    location: string,
    website: string,
    company: string,
    timezone: string,
    language: string)

  /** The fields edited by a plain `{ ...user, [field]: value }`. */
  datatype ProfileField = Email | Bio | Location | Company | Website | Timezone | Language

  function Get(p: Profile, f: ProfileField): string {
    match f
    case Email => p.email
    case Bio => p.bio
    case Location => p.location
    case Company => p.company
    case Website => p.website
    case Timezone => p.timezone
    case Language => p.language
  }

  function With(p: Profile, f: ProfileField, v: string): Profile {
    match f
    case Email => p.(email := v)
    case Bio => p.(bio := v)
    case Location => p.(location := v)
    case Company => p.(company := v)
    case Website => p.(website := v)
    case Timezone => p.(timezone := v)
    case Language => p.(language := v)
  }

  /** A field edit sets that field and no other. */
  lemma WithChangesOneField(p: Profile, f: ProfileField, v: string, g: ProfileField)
    ensures Get(With(p, f, v), f) == v
    ensures g != f ==> Get(With(p, f, v), g) == Get(p, g)
    ensures With(p, f, v).name == p.name && With(p, f, v).avatarUrl == p.avatarUrl
  {
  }

  class ProfilePage {
    var user: Profile

    /** The initial state: `mockUser` with the page's own defaults. */
    constructor (mock: Types.User)
      ensures user.name == mock.name && user.email == mock.email && user.avatarUrl == mock.avatarUrl
      ensures user.bio == "Product manager passionate about building great user experiences."
      ensures user.location == "San Francisco, CA"
      ensures user.website == "https://johndoe.dev"
      ensures user.company == "TechCorp Inc."
      ensures user.timezone == "America/Los_Angeles"
      ensures user.language == "en"
    {
      user := Profile(mock.name, mock.email, mock.avatarUrl,
                      "Product manager passionate about building great user experiences.",
                      "San Francisco, CA", "https://johndoe.dev", "TechCorp Inc.",
                      "America/Los_Angeles", "en");
    }

    method EditFirstName(v: string)
      modifies this
      ensures user == old(user).(name := WithFirstName(old(user).name, v))
    {
      user := user.(name := WithFirstName(user.name, v));
    }

    method EditLastName(v: string)
      modifies this
      ensures user == old(user).(name := WithLastName(old(user).name, v))
    {
      user := user.(name := WithLastName(user.name, v));
    }

    method EditField(f: ProfileField, v: string)
      modifies this
      ensures user == With(old(user), f, v)
    {
      user := With(user, f, v);
    }
  }
}
