/**
 * The login page's profile bootstrap (`src/pages/Login.tsx`): when a user
 * signs in, a profile row is created for them unless one exists, with a
 * username taken from their email. Backend answers are inputs.
 */
module Login {
  import opened Wrappers
  import opened Strings
  import opened AuthContext

  /** Unique-constraint violation: someone created the profile first. */
  const UniqueViolation: string := "23505"

  /** `user.email?.split('@')[0] || \`user_${user.id.slice(0, 8)}\``. */
  function Username(email: Option<string>, id: string): (r: string)
    ensures r != ""
  {
    var local := if email.Some? then Split(email.value, '@')[0] else "";
    if local != "" then local else "user_" + id[..if |id| < 8 then |id| else 8]
  }

  /**
   * The username is the part of the email before its first `@` (the whole
   * email when there is none); when that is empty or there is no email it
   * is `user_` and at most the first eight characters of the id.
   */
  lemma UsernameShape(email: Option<string>, id: string)
    ensures var r := Username(email, id);
            if email.Some? && email.value != "" && email.value[0] != '@' then
              && r <= email.value && '@' !in r
              && (r == email.value || email.value[|r|] == '@')
            else
              r == "user_" + id[..if |id| < 8 then |id| else 8]
  {
    if email.Some? {
      var e := email.value;
      FirstPieceIsPrefix(e, '@');
      var local := Split(e, '@')[0];
      if e != "" && e[0] == '@' {
        assert local == "";
      }
    }
  }

  /** The inserted profile row. */
  datatype Profile = Profile(id: string, username: string, avatarUrl: Option<string>)

  /** The events that make the listener look for a profile. */
  predicate Triggers(event: AuthEvent, session: Option<Session>) {
    event in {SignedIn, UserUpdated, TokenRefreshed} && session.Some? && session.value.user.Some?
  }

  class LoginPage {
    /** Profiles inserted, oldest first. */
    var inserted: seq<Profile>
    /** Error codes written to the console, oldest first. */
    var logged: seq<string>

    constructor ()
      ensures inserted == [] && logged == []
    {
      inserted := [];
      logged := [];
    }

    /**
     * The auth listener. `profileFound` is whether the lookup returned a
     * profile; `insertError` is the insert's error code, if any.
     */
    method OnAuthStateChange(event: AuthEvent, session: Option<Session>, profileFound: bool, insertError: Option<string>)
      modifies this
      ensures !Triggers(event, session) || profileFound ==> inserted == old(inserted) && logged == old(logged)
      ensures Triggers(event, session) && !profileFound ==>
                var user := session.value.user.value;
                && inserted == old(inserted) + [Profile(user.id, Username(user.email, user.id), None)]
                && logged == old(logged) + (if insertError.Some? && insertError.value != UniqueViolation then [insertError.value] else [])
    {
      if event in {SignedIn, UserUpdated, TokenRefreshed} && session.Some? && session.value.user.Some? {
        var user := session.value.user.value;
        if !profileFound {
          inserted := inserted + [Profile(user.id, Username(user.email, user.id), None)];
          if insertError.Some? && insertError.value != UniqueViolation {
            logged := logged + [insertError.value];
          }
        }
      }
    }
  }
}
