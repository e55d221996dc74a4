/** `com.portfolio.controller.AuthController`: `POST /api/auth/login`. */
module AuthApi {
  import opened Wrappers
  import opened Java
  import opened Auth

  /** `LoginRequest`: the JSON body of the login call. */
  datatype LoginRequest = LoginRequest(username: JString, password: JString)

  /** `LoginResponse`: the JSON body `{token}` of a successful login. */
  datatype LoginResponse = LoginResponse(token: string)

  class AuthController {
    const authService: AuthService

    constructor (authService: AuthService)
      ensures this.authService == authService
    {
      this.authService := authService;
    }

    /**
     * `login(request)`: the request's credentials go to the service unchanged;
     * null from the service is 401 without a body, a token is 200 with it.
     */
    method Login(request: LoginRequest, uuid: string) returns (r: ResponseEntity<LoginResponse>)
      modifies authService
      ensures authService.Accepts(request.username, request.password) ==>
        r == Ok(LoginResponse(uuid)) && authService.currentToken == Some(uuid)
      ensures !authService.Accepts(request.username, request.password) ==>
        r == Empty(UNAUTHORIZED) && authService.currentToken == old(authService.currentToken)
    {
      var token := authService.Login(request.username, request.password, uuid);
      if token == None {
        return Empty(UNAUTHORIZED);
      }
      return Ok(LoginResponse(token.value));
    }
  }
}
