/** The login flag (context/AuthContext.tsx): one boolean persisted as the text "true" or
    "false". */
module AuthContext {
  import opened Wrappers
  import opened Storage

  const AuthKey: string := "isLoggedIn"

  /** The initial flag: only the exact stored text "true" logs in; a missing value, any
      other text or a throwing read give false. */
  function FlagFromStorage(read: Result<Option<string>, string>): (b: bool)
    ensures b <==> read.Success? && read.value.Some? && read.value.value == "true"
  {
    match read
    case Success(Some(text)) => text == "true"
    case _ => false
  }

  /** `String(isLoggedIn)`. */
  function FlagText(b: bool): (s: string)
    ensures s == "true" || s == "false"
  {
    if b then "true" else "false"
  }

  /** Loading what was persisted gives the same flag. */
  lemma FlagRoundTrip(b: bool)
    ensures FlagFromStorage(Success(Some(FlagText(b)))) == b
  {
  }

  class AuthState {
    var isLoggedIn: bool
    const backing: LocalStorage

    ghost predicate Persisted()
      reads this, backing
    {
      backing.available ==> AuthKey in backing.data && backing.data[AuthKey] == FlagText(isLoggedIn)
    }

    /** Mount: read the flag, then write it back as text. */
    constructor Load(backing: LocalStorage)
      modifies backing
      ensures this.backing == backing
      ensures isLoggedIn == FlagFromStorage(old(backing.GetItem(AuthKey)))
      ensures backing.data == Written(backing.available, old(backing.data), AuthKey, FlagText(isLoggedIn))
      ensures Persisted()
    {
      this.backing := backing;
      isLoggedIn := FlagFromStorage(backing.GetItem(AuthKey));
      new;
      backing.SetItem(AuthKey, FlagText(isLoggedIn));
    }

    /** Sets the flag; the outcome does not depend on the previous state, so a second call
        changes nothing. */
    method Login()
      modifies this, backing
      ensures isLoggedIn
      ensures backing.data == Written(backing.available, old(backing.data), AuthKey, "true")
      ensures Persisted()
    {
      isLoggedIn := true;
      backing.SetItem(AuthKey, FlagText(isLoggedIn));
    }

    method Logout()
      modifies this, backing
      ensures !isLoggedIn
      ensures backing.data == Written(backing.available, old(backing.data), AuthKey, "false")
      ensures Persisted()
    {
      isLoggedIn := false;
      backing.SetItem(AuthKey, FlagText(isLoggedIn));
    }
  }
}
