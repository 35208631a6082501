/**
 * Frontend/src/contexts/AuthContext.jsx: the mock authentication provider.
 * Sign-in and sign-up always succeed and store a fixed user id; sign-up
 * derives the avatar from the initials of the given name.
 */
module AuthContext {
  import opened Wrappers
  import JsStrings

  datatype User = User(id: string, email: string, name: string, avatar: string)

  /** `words.map(n => n[0]).join('')`: an empty word gives `undefined`, which joins as nothing. */
  function FirstChars(words: seq<string>): (r: string)
    ensures |r| <= |words|
  {
    if words == [] then ""
    else (if words[0] == "" then "" else [words[0][0]]) + FirstChars(words[1..])
  }

  /** The number of non-empty words. */
  function NonEmptyCount(words: seq<string>): nat {
    if words == [] then 0 else (if words[0] == "" then 0 else 1) + NonEmptyCount(words[1..])
  }

  /** The sign-up avatar: the first character of each space-separated word. */
  function Initials(name: string): string {
    FirstChars(JsStrings.Split(name, ' '))
  }

  /**
   * The reference reading of the initials: every non-space character that
   * starts the text or follows a space, in order. `atStart` says whether the
   * previous character was a space (or there was none).
   */
  function WordStarts(s: string, atStart: bool): string {
    if s == [] then ""
    else if s[0] == ' ' then WordStarts(s[1..], true)
    else (if atStart then [s[0]] else "") + WordStarts(s[1..], false)
  }

  lemma {:induction false} FirstCharsOfSplit(s: string)
    ensures FirstChars(JsStrings.Split(s, ' ')) == WordStarts(s, true)
    ensures FirstChars(JsStrings.Split(s, ' ')[1..]) == WordStarts(s, false)
  {
    var parts := JsStrings.Split(s, ' ');
    if s == [] {
      assert parts == [""];
    } else {
      FirstCharsOfSplit(s[1..]);
      var rest := JsStrings.Split(s[1..], ' ');
      if s[0] == ' ' {
        assert parts == [""] + rest;
        assert parts[1..] == rest;
      } else {
        assert parts == [[s[0]] + rest[0]] + rest[1..];
        assert parts[1..] == rest[1..];
      }
    }
  }

  /** The initials are exactly the characters that begin a word of the name. */
  lemma InitialsAreWordStarts(name: string)
    ensures Initials(name) == WordStarts(name, true)
  {
    FirstCharsOfSplit(name);
  }

  lemma {:induction false} FirstCharsCount(words: seq<string>)
    ensures |FirstChars(words)| == NonEmptyCount(words)
  {
    if words != [] {
      FirstCharsCount(words[1..]);
    }
  }

  lemma {:induction false} WordStartsHasNoSpace(s: string, atStart: bool)
    ensures forall i :: 0 <= i < |WordStarts(s, atStart)| ==> WordStarts(s, atStart)[i] != ' '
  {
    if s != [] {
      WordStartsHasNoSpace(s[1..], s[0] == ' ');
      WordStartsHasNoSpace(s[1..], false);
    }
  }

  /** One initial per non-empty word, and no initial is a space. */
  lemma InitialsShape(name: string)
    ensures |Initials(name)| == NonEmptyCount(JsStrings.Split(name, ' '))
    ensures forall i :: 0 <= i < |Initials(name)| ==> Initials(name)[i] != ' '
  {
    FirstCharsCount(JsStrings.Split(name, ' '));
    InitialsAreWordStarts(name);
    WordStartsHasNoSpace(name, true);
  }

  class AuthProvider {
    var currentUser: Option<User>
    var loading: bool

    constructor()
      ensures currentUser == None && loading
    {
      currentUser := None;
      loading := true;
    }

    /** The mock sign-in: any credentials give the fixed test user. */
    method SignIn(email: string, password: string) returns (ok: bool)
      modifies this
      ensures ok && currentUser == Some(User("user123", email, "Test User", "TU"))
      ensures loading == old(loading)
    {
      currentUser := Some(User("user123", email, "Test User", "TU"));
      ok := true;
    }

    /** The mock sign-up: the name and email are kept as given and the avatar is their initials. */
    method SignUp(name: string, email: string, password: string) returns (ok: bool)
      modifies this
      ensures ok && currentUser == Some(User("user123", email, name, Initials(name)))
      ensures loading == old(loading)
    {
      currentUser := Some(User("user123", email, name, Initials(name)));
      ok := true;
    }

    method SignOut() returns (ok: bool)
      modifies this
      ensures ok && currentUser == None && loading == old(loading)
    {
      currentUser := None;
      ok := true;
    }

    /** The timer of the initial auth check. */
    method FinishAuthCheck()
      modifies this
      ensures !loading && currentUser == old(currentUser)
    {
      loading := false;
    }
  }
}
