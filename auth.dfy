/** The token middleware (backendExpress/middleware/auth.js): `auth` lets a
    request through when its bearer token verifies, `authAdmin` when the
    token's role is also ADMIN. Token verification (jsonwebtoken with the
    access secret) is an oracle `verify` that gives the decoded payload, or
    None when it throws. No router of the application applies either
    middleware. */
module Auth {
  import opened JsCore
  import opened Express

  /** What the middleware does with a request: call `next` with the decoded
      payload attached, or send exactly one reply. */
  datatype Outcome = Next(decoded: Json) | Respond(reply: Reply)

  /** `header.replace("Bearer ", "")`: the first occurrence is removed,
      wherever it is. */
  function Token(header: string): string
  {
    ReplaceFirst(header, "Bearer ", "")
  }

  /** A header that starts with "Bearer " yields the rest of the header. */
  lemma TokenOfBearerHeader(rest: string)
    ensures Token("Bearer " + rest) == rest
  {
    var h := "Bearer " + rest;
    assert "Bearer " <= h;
    ReplaceLeadingPattern(h, "Bearer ");
    assert h[|"Bearer "|..] == rest;
  }

  /** The removal is not anchored: a header without the prefix but with
      "Bearer " further in loses that occurrence. */
  lemma TokenNotAnchored()
    ensures Token("xBearer y") == "xy"
  {
    var h := "xBearer y";
    assert !OccursAt(h, "Bearer ", 0) by { assert h[0..7][0] == 'x'; }
    assert OccursAt(h, "Bearer ", 1) by { assert h[1..8] == "Bearer "; }
    assert IndexOf(h, "Bearer ") == Some(1);
    var r := Token(h);
    assert |r| == 2 && r[..1] == h[..1] && r[1..] == h[8..];
    assert r == r[..1] + r[1..];
  }

  /** A header with no "Bearer " in it is the token itself. */
  lemma TokenWithoutBearer(header: string)
    requires forall j :: !OccursAt(header, "Bearer ", j)
    ensures Token(header) == header
  {
  }

  /** `auth`. */
  function Authenticate(header: Option<string>, verify: string -> Option<Json>): (r: Outcome)
    ensures header.None? <==> r == Respond(Reply(400, "no token found"))
    ensures header.Some? && Token(header.value) == "" ==> r == Respond(Reply(403, "missing token"))
    ensures header.Some? && Token(header.value) != "" && verify(Token(header.value)).None? ==>
              r == Respond(Reply(401, "unauthorised"))
    ensures r.Next? <==> header.Some? && Token(header.value) != "" && verify(Token(header.value)).Some?
    ensures r.Next? ==> r.decoded == verify(Token(header.value)).value
  {
    if header.None? then Respond(Reply(400, "no token found"))
    else
      var token := Token(header.value);
      if token == "" then Respond(Reply(403, "missing token"))
      else
        match verify(token)
        case None => Respond(Reply(401, "unauthorised"))
        case Some(decoded) => Next(decoded)
  }

  /** `decoded.role.toUpperCase() === "ADMIN"`; None when reading the role
      throws (no role, or one that is not a string). */
  function RoleIsAdmin(decoded: Json): Option<bool>
  {
    match Prop(Some(decoded), "role")
    case Some(JStr(role)) => Some(ToUpper(role) == "ADMIN")
    case _ => None
  }

  /** `authAdmin`: as `auth`, then the role gate. A payload whose role cannot
      be upper-cased throws inside the `try` and gets the 401 reply. */
  function AuthenticateAdmin(header: Option<string>, verify: string -> Option<Json>): (r: Outcome)
    ensures r.Next? <==> Authenticate(header, verify).Next? && RoleIsAdmin(Authenticate(header, verify).decoded) == Some(true)
    ensures r.Next? ==> r == Authenticate(header, verify)
    ensures Authenticate(header, verify).Respond? ==> r == Authenticate(header, verify)
    ensures Authenticate(header, verify).Next? && RoleIsAdmin(Authenticate(header, verify).decoded) == Some(false) ==>
              r == Respond(Reply(403, "unauthoried"))
    ensures Authenticate(header, verify).Next? && RoleIsAdmin(Authenticate(header, verify).decoded).None? ==>
              r == Respond(Reply(401, "unauthorised"))
  {
    if header.None? then Respond(Reply(400, "no token found"))
    else
      var token := Token(header.value);
      if token == "" then Respond(Reply(403, "missing token"))
      else
        match verify(token)
        case None => Respond(Reply(401, "unauthorised"))
        case Some(decoded) =>
          match RoleIsAdmin(decoded)
          case None => Respond(Reply(401, "unauthorised"))
          case Some(isAdmin) => if isAdmin then Next(decoded) else Respond(Reply(403, "unauthoried"))
  }

  /** The admin gate is case-insensitive: a token whose role is "admin" passes. */
  lemma LowerCaseAdminPasses(header: Option<string>, verify: string -> Option<Json>)
    requires Authenticate(header, verify).Next?
    requires Prop(Some(Authenticate(header, verify).decoded), "role") == Some(JStr("admin"))
    ensures AuthenticateAdmin(header, verify).Next?
  {
    var u := ToUpper("admin");
    assert u[0] == 'A' && u[1] == 'D' && u[2] == 'M' && u[3] == 'I' && u[4] == 'N';
    assert u == "ADMIN";
  }
}
