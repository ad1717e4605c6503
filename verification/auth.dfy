/**
 * The mock identity store (`useAuth`): the signed-in user lives in memory
 * and under `mitra-user`. Signing in never fails, ignores the password and
 * names the user after the part of the email before the first `@`.
 */
module Auth {
  import opened Wrappers
  import opened Storage
  import opened Text

  const UserKey := "mitra-user"

  /** `email.split('@')[0]`. */
  function LocalPart(email: string): string {
    FirstPiece(email, '@')
  }

  /** An email without `@` is its own local part. */
  lemma LocalPartWithoutAt(email: string)
    requires '@' !in email
    ensures LocalPart(email) == email
  {
    assert email[..|email|] == email;
  }

  /** With an `@`, the local part, the `@` and the rest give the email back. */
  lemma LocalPartBeforeAt(email: string)
    requires '@' in email
    ensures exists rest :: email == LocalPart(email) + "@" + rest
  {
    var k := IndexOf(email, '@');
    assert email[..|email|] == email;
    assert k < |email|;
    var rest := email[k + 1..];
    assert email == email[..k] + "@" + rest;
    assert email == LocalPart(email) + "@" + rest;
  }

  /** The user `signIn` makes. */
  function SignInUser(email: string): (u: User)
    ensures u.id == "1" && u.email == email && u.name == LocalPart(email)
  {
    User("1", LocalPart(email), email)
  }

  /** The session. */
  class AuthState {
    var user: Option<User>
    var isLoading: bool
    const storage: BrowserStorage

    constructor(storage: BrowserStorage)
      ensures this.storage == storage && user == None && isLoading
    {
      this.storage := storage;
      user, isLoading := None, true;
    }

    /** The mount effect: a stored user is restored, and loading is over. */
    method Load()
      modifies this`user, this`isLoading
      ensures !isLoading
      ensures Has(storage.items, UserKey) && storage.items[UserKey].UserRecord? ==>
        user == Some(storage.items[UserKey].user)
      ensures !(Has(storage.items, UserKey) && storage.items[UserKey].UserRecord?) ==> user == old(user)
    {
      if Has(storage.items, UserKey) && storage.items[UserKey].UserRecord? {
        user := Some(storage.items[UserKey].user);
      }
      isLoading := false;
    }

    /** `signIn`: always succeeds; the password plays no part. */
    method SignIn(email: string, password: string) returns (signedIn: User)
      modifies this`user, storage
      ensures signedIn == SignInUser(email)
      ensures user == Some(signedIn)
      ensures storage.items == old(storage.items)[UserKey := UserRecord(signedIn)]
    {
      signedIn := SignInUser(email);
      user := Some(signedIn);
      storage.SetItem(UserKey, UserRecord(signedIn));
    }

    /** `signUp`: keeps the given name and email; the id is the clock reading passed in. */
    method SignUp(name: string, email: string, password: string, id: string) returns (signedUp: User)
      modifies this`user, storage
      ensures signedUp == User(id, name, email)
      ensures user == Some(signedUp)
      ensures storage.items == old(storage.items)[UserKey := UserRecord(signedUp)]
    {
      signedUp := User(id, name, email);
      user := Some(signedUp);
      storage.SetItem(UserKey, UserRecord(signedUp));
    }

    /** `signOut`: nobody is signed in and the stored user is gone. */
    method SignOut()
      modifies this`user, storage
      ensures user == None
      ensures storage.items == old(storage.items) - {UserKey}
    {
      user := None;
      storage.RemoveItem(UserKey);
    }
  }

  /** After a sign-in, a reload restores exactly the user that signed in. */
  lemma SignInSurvivesReload(items: Items, email: string)
    ensures var after := items[UserKey := UserRecord(SignInUser(email))];
      Has(after, UserKey) && after[UserKey].UserRecord? && after[UserKey].user == SignInUser(email)
  {
  }

  /** After a sign-out, a reload finds nobody. */
  lemma SignOutSurvivesReload(items: Items)
    ensures !Has(items - {UserKey}, UserKey)
  {
  }
}
