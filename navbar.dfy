/**
 * The navigation bar (components/navbar.tsx): keeping the `token` and
 * `user` entries of `localStorage` consistent with what the profile
 * endpoint says, signing out, and the avatar initials.
 *
 * `localStorage` is the `store` field. JSON is not modelled: whether the
 * stored user text parses, and the user it parses to, is an input;
 * `JSON.stringify` is the function parameter `stringify`.
 */
module NavbarComponent {
  import opened Js
  import Api

  /** `UserProfile`. */
  datatype UserProfile = UserProfile(
    id: int, firstName: string, lastName: string, email: Option<string>, country: Option<string>,
    phoneNumber: Option<string>, jobTitle: Option<string>, gender: Option<string>,
    profilePicture: Option<string>, bio: Option<string>, resume: Option<string>,
    linkedin: Option<string>, skills: Option<string>, portfolio: Option<string>,
    profileCompleted: bool, user: int)

  /** `User`: what the navbar keeps and stores. */
  datatype User = User(
    id: string, name: string, email: string, token: Option<string>,
    firstName: Option<string>, lastName: Option<string>, profile: Option<UserProfile>)

  /**
   * The user record stored after a successful profile answer: `id`,
   * `name` and `email` always, and `token`, `first_name`, `last_name` and
   * `profile` only when they are truthy.
   */
  function StoredUser(d: User): (u: User)
    ensures u.id == d.id && u.name == d.name && u.email == d.email
    ensures u.token == (if Truthy(d.token) then d.token else None)
    ensures u.firstName == (if Truthy(d.firstName) then d.firstName else None)
    ensures u.lastName == (if Truthy(d.lastName) then d.lastName else None)
    ensures u.profile == d.profile
    ensures u.token.Some? ==> u.token.value != ""
  {
    User(d.id, d.name, d.email,
      if Truthy(d.token) then d.token else None,
      if Truthy(d.firstName) then d.firstName else None,
      if Truthy(d.lastName) then d.lastName else None,
      d.profile)
  }

  // ---------------------------------------------------------------------
  // Initials: user.name.split(' ').map(n => n[0]).join('').toUpperCase() || 'U'
  // ---------------------------------------------------------------------

  /** `s.split(' ')`: the pieces between single spaces, empty pieces included. */
  function SplitOnSpace(s: string): (words: seq<string>)
    ensures |words| >= 1
  {
    if s == [] then [""]
    else
      var rest := SplitOnSpace(s[1..]);
      if s[0] == ' ' then [""] + rest else [[s[0]] + rest[0]] + rest[1..]
  }

  /** `words.join(' ')`. */
  function JoinSpace(words: seq<string>): string {
    if words == [] then ""
    else if |words| == 1 then words[0]
    else words[0] + (" " + JoinSpace(words[1..]))
  }

  /** Splitting on spaces loses nothing: the pieces hold no space and join back to the text. */
  lemma {:induction false} SplitOnSpaceRoundTrip(s: string)
    ensures JoinSpace(SplitOnSpace(s)) == s
    ensures forall w :: w in SplitOnSpace(s) ==> ' ' !in w
  {
    if s != [] {
      SplitOnSpaceRoundTrip(s[1..]);
      var rest := SplitOnSpace(s[1..]);
      assert s == [s[0]] + s[1..];
      if s[0] == ' ' {
        assert SplitOnSpace(s) == [""] + rest;
        JoinAfterEmpty(rest);
      } else {
        assert SplitOnSpace(s) == [[s[0]] + rest[0]] + rest[1..];
        JoinAfterChar(s[0], rest);
        assert ' ' !in rest[0];
      }
    }
  }

  /** A leading empty piece joins as a leading space. */
  lemma {:induction false} JoinAfterEmpty(rest: seq<string>)
    requires |rest| >= 1
    ensures JoinSpace([""] + rest) == " " + JoinSpace(rest)
  {
    assert ([""] + rest)[1..] == rest;
  }

  /** A character glued to the first piece joins in front of the whole text. */
  lemma {:induction false} JoinAfterChar(c: char, rest: seq<string>)
    requires |rest| >= 1
    ensures JoinSpace([[c] + rest[0]] + rest[1..]) == [c] + JoinSpace(rest)
  {
    var first := [c] + rest[0];
    var words := [first] + rest[1..];
    assert words[0] == first && words[1..] == rest[1..] && |words| == |rest|;
    if |rest| == 1 {
      assert JoinSpace(words) == first;
    } else {
      JoinTail(first, rest[1..]);
      JoinTail(rest[0], rest[1..]);
      assert rest == [rest[0]] + rest[1..];
    }
  }

  /** `JoinSpace` of a piece in front of at least one more. */
  lemma {:induction false} JoinTail(first: string, more: seq<string>)
    requires |more| >= 1
    ensures JoinSpace([first] + more) == first + (" " + JoinSpace(more))
  {
    assert ([first] + more)[1..] == more;
  }

  /** `words.map(n => n[0]).join('')`: `n[0]` of an empty word is undefined and joins as "". */
  function FirstChars(words: seq<string>): string {
    if words == [] then ""
    else (if words[0] == "" then "" else [words[0][0]]) + FirstChars(words[1..])
  }

  /**
   * The reference reading: the characters that start a word, that is,
   * non-space characters at the start of `s` (when `atStart`) or right
   * after a space.
   */
  function WordStarts(s: string, atStart: bool): string {
    if s == [] then ""
    else (if s[0] != ' ' && atStart then [s[0]] else "") + WordStarts(s[1..], s[0] == ' ')
  }


  /** Splitting then taking first characters picks exactly the word-start characters. */
  lemma {:induction false} FirstCharsOfSplit(s: string)
    ensures FirstChars(SplitOnSpace(s)) == WordStarts(s, true)
    ensures FirstChars(SplitOnSpace(s)[1..]) == WordStarts(s, false)
  {
    if s != [] {
      FirstCharsOfSplit(s[1..]);
      var rest := SplitOnSpace(s[1..]);
      if s[0] == ' ' {
        assert SplitOnSpace(s) == [""] + rest;
        assert SplitOnSpace(s)[1..] == rest;
        assert FirstChars([""] + rest) == FirstChars(rest);
      } else {
        var words := [[s[0]] + rest[0]] + rest[1..];
        assert SplitOnSpace(s) == words;
        assert words[1..] == rest[1..];
        assert FirstChars(words) == [s[0]] + FirstChars(rest[1..]);
      }
    }
  }

  /**
   * The avatar initials: the upper-cased first character of every
   * space-separated word, or "U" when no word has one; never empty.
   */
  function Initials(name: string): (r: string)
    ensures r == if WordStarts(name, true) == "" then "U" else ToUpper(WordStarts(name, true))
    ensures r != ""
  {
    FirstCharsOfSplit(name);
    var joined := ToUpper(FirstChars(SplitOnSpace(name)));
    if joined == "" then "U" else joined
  }

  /** A name made of spaces only (or empty) shows "U". */
  lemma {:induction false} BlankNameShowsU(name: string, atStart: bool)
    requires forall i :: 0 <= i < |name| ==> name[i] == ' '
    ensures WordStarts(name, atStart) == ""
    ensures atStart ==> Initials(name) == "U"
  {
    if name != [] {
      BlankNameShowsU(name[1..], true);
    }
  }

  // ---------------------------------------------------------------------
  // The component
  // ---------------------------------------------------------------------

  /** The store after `removeItem` of the given keys. */
  function Without(store: map<string, string>, keys: set<string>): (r: map<string, string>)
    ensures r.Keys == store.Keys - keys
    ensures forall k :: k in r ==> r[k] == store[k]
  {
    store - keys
  }

  class Navbar {
    var store: map<string, string>
    var user: Option<User>
    var loading: bool

    constructor (store: map<string, string>)
      ensures this.store == store && user.None? && loading
    {
      this.store := store;
      user := None;
      loading := true;
    }

    /**
     * `checkAuthStatus`. On the server, only `loading` changes. Without a
     * token, a truthy stored user is removed and there is no profile
     * request. With a token, a stored user that does not parse is
     * removed, one that parses is shown, and then the profile answer
     * decides: data stores and shows the new user record; 401/403 removes
     * both keys; a failed request removes both keys; anything else keeps
     * the store. `parsedStoredUser` is what `JSON.parse` gives for the
     * stored user text (None when it throws).
     */
    method CheckAuthStatus(inBrowser: bool, parsedStoredUser: Option<User>,
                           me: Fetch<Api.ApiResponse<User>>, stringify: User -> string)
      returns (profileRequested: bool)
      modifies this
      ensures !loading
      ensures profileRequested <==> inBrowser && Truthy(Get(old(store), "token"))
      ensures !inBrowser ==> store == old(store) && user == old(user)
      ensures inBrowser && !Truthy(Get(old(store), "token")) ==>
        user.None? &&
        (store == if Truthy(Get(old(store), "user")) then Without(old(store), {"user"}) else old(store))
      ensures profileRequested && me.Resolved? && me.value.data.Some? ==>
        user == Some(StoredUser(me.value.data.value)) &&
        store == SeenStore(old(store), parsedStoredUser)["user" := stringify(StoredUser(me.value.data.value))]
      ensures profileRequested && me.Resolved? && me.value.data.None? && Api.IsAuthError(me.value.status) ==>
        user.None? && store == Without(old(store), {"token", "user"})
      ensures profileRequested && me.Resolved? && me.value.data.None? && !Api.IsAuthError(me.value.status) ==>
        store == SeenStore(old(store), parsedStoredUser) && user == SeenUser(old(store), parsedStoredUser, old(user))
      ensures profileRequested && me.Rejected? ==>
        user.None? && store == Without(old(store), {"token", "user"})
    {
      profileRequested := false;
      if !inBrowser {
        loading := false;
        return;
      }
      var token := Get(store, "token");
      if !Truthy(token) {
        if Truthy(Get(store, "user")) {
          store := Without(store, {"user"});
        }
        user := None;
        loading := false;
        return;
      }
      var storedUser := Get(store, "user");
      if Truthy(storedUser) {
        if parsedStoredUser.Some? {
          user := parsedStoredUser;
        } else {
          store := Without(store, {"user"});
        }
      }
      profileRequested := true;
      match me {
        case Resolved(userResponse) =>
          if userResponse.data.Some? {
            var u := StoredUser(userResponse.data.value);
            store := store["user" := stringify(u)];
            user := Some(u);
          } else if Api.IsAuthError(userResponse.status) {
            store := Without(store, {"token", "user"});
            user := None;
          }
        case Rejected(_) =>
          store := Without(store, {"token", "user"});
          user := None;
      }
      loading := false;
    }

    /**
     * `handleLogout`: the logout request is sent only when signed in; in
     * every case both keys are removed, the user is cleared and the page
     * goes to "/".
     */
    method HandleLogout() returns (logoutRequested: bool, redirect: string)
      modifies this
      ensures logoutRequested <==> Api.IsAuthenticated(true, old(store))
      ensures store == Without(old(store), {"token", "user"})
      ensures "token" !in store && "user" !in store
      ensures user.None? && loading == old(loading) && redirect == "/"
    {
      logoutRequested := Api.IsAuthenticated(true, store);
      store := Without(store, {"token", "user"});
      user := None;
      redirect := "/";
    }
  }

  /** The store once the stored user has been read: removed when its text does not parse. */
  function SeenStore(store: map<string, string>, parsedStoredUser: Option<User>): (r: map<string, string>)
    ensures Truthy(Get(store, "user")) && parsedStoredUser.None? ==> r == Without(store, {"user"})
    ensures !(Truthy(Get(store, "user")) && parsedStoredUser.None?) ==> r == store
  {
    if Truthy(Get(store, "user")) && parsedStoredUser.None? then Without(store, {"user"}) else store
  }

  /** The user shown once the stored user has been read: the parsed one, when there is one. */
  function SeenUser(store: map<string, string>, parsedStoredUser: Option<User>, user: Option<User>): (r: Option<User>)
    ensures Truthy(Get(store, "user")) && parsedStoredUser.Some? ==> r == parsedStoredUser
    ensures !(Truthy(Get(store, "user")) && parsedStoredUser.Some?) ==> r == user
  {
    if Truthy(Get(store, "user")) && parsedStoredUser.Some? then parsedStoredUser else user
  }
}
