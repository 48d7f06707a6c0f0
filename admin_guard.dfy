/** The strict admin check (app/admin_guard.py): only `Authorization: Bearer
    <ADMIN_TOKEN>` is accepted. The environment variable is a parameter; the
    log lines printed on refusal are not part of this model, but the masking
    they use is. */
module AdminGuard {
  import opened PyText

  /** What a FastAPI dependency does with a request: let it through, or raise
      an HTTPException with a status code and a detail text. */
  datatype Access = Granted | Refused(status: int, detail: string)

  /** `"*" * n`. */
  function Stars(n: nat): (r: string)
    ensures |r| == n && forall i :: 0 <= i < n ==> r[i] == '*'
  {
    seq(n, _ => '*')
  }

  /** `_mask(tok)`: a token shown in a log line with all but its first two and
      last two characters hidden. */
  function Mask(tok: Option<string>): (r: string)
    ensures tok.None? ==> r == []
    ensures tok.Some? ==> |r| == |tok.value|
    ensures tok.Some? && |tok.value| <= 4 ==> forall i :: 0 <= i < |r| ==> r[i] == '*'
    ensures tok.Some? && |tok.value| > 4 ==>
      && r[..2] == tok.value[..2]
      && r[|r| - 2..] == tok.value[|r| - 2..]
      && forall i :: 2 <= i < |r| - 2 ==> r[i] == '*'
  {
    if tok.None? || tok.value == [] then []
    else
      var t := tok.value;
      if |t| <= 4 then Stars(|t|)
      else
        var r := t[..2] + Stars(|t| - 4) + t[|t| - 2..];
        assert r[|r| - 2..] == t[|t| - 2..];
        r
  }

  /** A header whose lowercase form starts with "bearer " has its first space
      at index 6: the six characters before it lower to letters. */
  lemma BearerSpaceAt6(a: string)
    requires StartsWith(LowerStr(a), "bearer ")
    ensures Find(a, " ") == 6
  {
    assert LowerStr(a)[6] == ' ';
    assert OccursAt(a, " ", 6);
    forall j | 0 <= j < 6 ensures !OccursAt(a, " ", j) {
      assert LowerStr(a)[j] == "bearer "[j] && IsAsciiLower("bearer "[j]);
      assert !IsSpace(Lower(a[j]));
      assert a[j] != ' ';
      assert a[j..j + 1] == [a[j]];
    }
  }

  /** The token of an `Authorization` header, as lines 19-23 take it: present
      only when the header's lowercase form starts with "bearer ", and then the
      text after the first space, stripped. */
  function BearerToken(authorization: Option<string>): (r: Option<string>)
    ensures r.Some? <==> authorization.Some? && StartsWith(LowerStr(authorization.value), "bearer ")
    ensures r.Some? ==> r.value == Strip(authorization.value[7..])
  {
    if authorization.None? || !StartsWith(LowerStr(authorization.value), "bearer ") then None
    else
      var a := authorization.value;
      BearerSpaceAt6(a);
      var rest := AfterFirst(a, " ");
      Some(Strip(rest.value))
  }

  /** `require_admin(authorization)` with `os.getenv("ADMIN_TOKEN")` as
      `adminEnv`. */
  function RequireAdmin(adminEnv: Option<string>, authorization: Option<string>): (r: Access)
    ensures r == Granted <==> AdminToken(adminEnv) != [] && BearerToken(authorization) == Some(AdminToken(adminEnv))
    ensures r.Refused? ==> r.status in {403, 500} && (r.status == 500 <==> AdminToken(adminEnv) == [])
  {
    var admin := Strip(if adminEnv.Some? then adminEnv.value else "");
    if admin == [] then Refused(500, "ADMIN_TOKEN not configured")
    else match BearerToken(authorization)
      case None => Refused(403, "Admins only (Bearer required)")
      case Some(token) =>
        if token != admin then Refused(403, "Admins only (invalid token)") else Granted
  }

  // ------------------------------------------------------------- properties

  /** The configured admin token: the environment value, stripped. */
  function AdminToken(adminEnv: Option<string>): string {
    Strip(if adminEnv.Some? then adminEnv.value else "")
  }

  /** The outcomes of `require_admin`: 500 when no token is configured, 403
      "Bearer required" without a bearer header, and otherwise access exactly
      when the stripped text after "bearer " is the configured token. */
  lemma AdminOutcomes(adminEnv: Option<string>, authorization: Option<string>)
    ensures AdminToken(adminEnv) == [] ==> RequireAdmin(adminEnv, authorization) == Refused(500, "ADMIN_TOKEN not configured")
    ensures AdminToken(adminEnv) != [] && BearerToken(authorization).None? ==>
      RequireAdmin(adminEnv, authorization) == Refused(403, "Admins only (Bearer required)")
    ensures RequireAdmin(adminEnv, authorization) == Granted <==>
      && AdminToken(adminEnv) != []
      && authorization.Some? && StartsWith(LowerStr(authorization.value), "bearer ")
      && Strip(authorization.value[7..]) == AdminToken(adminEnv)
    ensures RequireAdmin(adminEnv, authorization) != Granted ==> RequireAdmin(adminEnv, authorization).status in {403, 500}
  {
  }

  /** Any spelling of "Bearer " followed by the token (with any surrounding
      whitespace) gets through, and the prefix is checked without regard to
      case. */
  lemma BearerRoundTrip(prefix: string, tok: string)
    requires LowerStr(prefix) == "bearer "
    ensures BearerToken(Some(prefix + tok)) == Some(Strip(tok))
  {
    var a := prefix + tok;
    LowerStrAppend(prefix, tok);
    assert LowerStr(a)[..7] == LowerStr(prefix);
    assert a[7..] == tok;
  }

  /** The header "Bearer <ADMIN_TOKEN>" is accepted whenever a token is
      configured. */
  lemma AdminAcceptsOwnToken(admin: string)
    requires Strip(admin) != []
    ensures RequireAdmin(Some(admin), Some("Bearer " + admin)) == Granted
  {
    BearerWordLower();
    BearerRoundTrip("Bearer ", admin);
    var token := BearerToken(Some("Bearer " + admin));
    assert token == Some(Strip(admin));
  }

  lemma BearerWordLower()
    ensures LowerStr("Bearer ") == "bearer "
  {
  }
}
