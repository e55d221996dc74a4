/** `com.portfolio.service.AuthService`: one admin account and one live token. */
module Auth {
  import opened Wrappers
  import opened Java

  /** The defaults of `portfolio.admin.username` and `portfolio.admin.password`. */
  const ADMIN_USERNAME := "admin"
  const ADMIN_PASSWORD := "admin123"

  class AuthService {
    const adminUsername: string
    const adminPassword: string
    /** The token issued by the latest successful login; null before the first. */
    var currentToken: JString

    constructor ()
      ensures adminUsername == ADMIN_USERNAME && adminPassword == ADMIN_PASSWORD
      ensures currentToken == None
      ensures forall t :: !IsValidToken(t)
    {
      adminUsername, adminPassword := ADMIN_USERNAME, ADMIN_PASSWORD;
      currentToken := None;
    }

    /** Both credentials match; `"admin".equals(null)` is false. */
    predicate Accepts(username: JString, password: JString)
      reads this
    {
      username == Some(adminUsername) && password == Some(adminPassword)
    }

    /**
     * `login(username, password)`. The random UUID of a successful login is the
     * input `uuid`. Success replaces the current token, failure leaves it alone.
     */
    method Login(username: JString, password: JString, uuid: string) returns (token: JString)
      modifies this
      ensures Accepts(username, password) ==> token == Some(uuid) && currentToken == token
      ensures !Accepts(username, password) ==> token == None && currentToken == old(currentToken)
      ensures token.Some? ==> forall t :: IsValidToken(t) <==> t == token
    {
      if !(Some(adminUsername) == username) || !(Some(adminPassword) == password) {
        return None;
      }
      currentToken := Some(uuid);
      token := currentToken;
    }

    /** `isValidToken(token)`: non-null and equal to the current token. */
    predicate IsValidToken(token: JString): (r: bool)
      reads this
      ensures r ==> token.Some?
      ensures currentToken.None? ==> !r
    {
      token.Some? && token == currentToken
    }
  }

  /**
   * After a successful login only the newest token is valid: any token issued
   * before is rejected as long as the fresh UUID differs from it.
   */
  lemma OnlyNewestTokenValid(a: AuthService, newest: string, earlier: string)
    requires a.currentToken == Some(newest)
    requires earlier != newest
    ensures a.IsValidToken(Some(newest))
    ensures !a.IsValidToken(Some(earlier))
    ensures !a.IsValidToken(None)
  {
  }
}
