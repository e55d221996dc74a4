/** The pieces of the Java and Spring runtime the backend model needs. */
module Java {
  import opened Wrappers

  /** A Java `String` reference: `None` is `null`. */
  type JString = Option<string>

  /**
   * Bean Validation's `@NotBlank`: not null, and something is left after
   * `String.trim()`, which strips every character up to and including U+0020.
   */
  predicate NotBlank(s: JString): (r: bool)
    ensures r <==> s.Some? && Trim(s.value) != ""
  {
    s.Some? && exists i :: 0 <= i < |s.value| && s.value[i] > ' '
  }

  /** `String.trim()`: the string without its leading and trailing characters up to U+0020. */
  function Trim(s: string): (r: string)
    ensures r == "" <==> forall i :: 0 <= i < |s| ==> s[i] <= ' '
  {
    TrimEnd(TrimStart(s))
  }

  /** The leading part of `trim()`. */
  function TrimStart(s: string): (r: string)
    ensures r == "" <==> forall i :: 0 <= i < |s| ==> s[i] <= ' '
    ensures r != "" ==> r[0] > ' '
  {
    if s != "" && s[0] <= ' ' then
      var r := TrimStart(s[1..]);
      assert forall i :: 0 < i < |s| ==> s[i] == s[1..][i - 1];
      r
    else s
  }

  /** The trailing part of `trim()`: it never removes a first character above U+0020. */
  function TrimEnd(s: string): (r: string)
    ensures s != "" && s[0] > ' ' ==> r != ""
  {
    if s != "" && s[|s| - 1] <= ' ' then TrimEnd(s[..|s| - 1]) else s
  }

  /** Spring's `ResponseEntity`: an HTTP status and an optional body. */
  datatype ResponseEntity<T> = ResponseEntity(status: int, body: Option<T>)

  const OK := 200
  const NO_CONTENT := 204
  const UNAUTHORIZED := 401
  const NOT_FOUND := 404
  const INTERNAL_SERVER_ERROR := 500

  /** `ResponseEntity.ok(body)` */
  function Ok<T>(body: T): ResponseEntity<T> {
    ResponseEntity(OK, Some(body))
  }

  /** `ResponseEntity.status(status).build()` and the other body-less builders */
  function Empty<T>(status: int): ResponseEntity<T> {
    ResponseEntity(status, None)
  }
}
