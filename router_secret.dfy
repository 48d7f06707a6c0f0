/** The internal-trust check of the `app.security` package
    (app/security/__init__.py): only the X-Router-Secret header is consulted,
    and it must equal APP_SECRET_KEY, whose value is a parameter here. */
module RouterSecret {
  import opened PyText
  import opened AdminGuard

  /** `require_router_secret(x_router_secret)`; `Granted` stands for the
      `True` it returns. */
  function RequireRouterSecret(appSecretKey: Option<string>, xRouterSecret: Option<string>): (r: Access)
    ensures var secret := Strip(if appSecretKey.Some? then appSecretKey.value else "");
      (r == Granted <==> secret != [] && xRouterSecret == Some(secret))
      && (r.Refused? ==> r.status in {403, 500} && (r.status == 500 <==> secret == []))
  {
    var appSecret := Strip(if appSecretKey.Some? then appSecretKey.value else "");
    if appSecret == [] then Refused(500, "APP_SECRET_KEY not configured")
    else if xRouterSecret != Some(appSecret) then Refused(403, "Forbidden")
    else Granted
  }

  // ------------------------------------------------------------- properties

  /** 500 when the configured secret is blank, whatever the header; otherwise
      access exactly when the header is present and equal to the stripped
      secret, and 403 "Forbidden" when it is not. */
  lemma RouterSecretOutcomes(appSecretKey: Option<string>, xRouterSecret: Option<string>)
    ensures var secret := Strip(if appSecretKey.Some? then appSecretKey.value else "");
      && (secret == [] ==> RequireRouterSecret(appSecretKey, xRouterSecret) == Refused(500, "APP_SECRET_KEY not configured"))
      && (secret != [] ==>
            (RequireRouterSecret(appSecretKey, xRouterSecret) == Granted <==> xRouterSecret == Some(secret))
            && (xRouterSecret != Some(secret) ==> RequireRouterSecret(appSecretKey, xRouterSecret) == Refused(403, "Forbidden")))
  {
  }

  /** The configured secret is stripped but the header is not: a header
      carrying the secret with a leading space is refused. */
  lemma HeaderNotStripped(secret: string)
    requires Strip(secret) == secret && secret != []
    ensures RequireRouterSecret(Some(secret), Some(" " + secret)) == Refused(403, "Forbidden")
    ensures RequireRouterSecret(Some(" " + secret + " "), Some(secret)) == Granted
  {
    var padded := " " + secret + " ";
    assert padded[1..|padded| - 1] == secret;
    assert StripOffset(padded) == 1 by {
      assert SpaceRun(padded, 1) == 1;
    }
    assert Strip(padded) == secret;
    assert " " + secret != secret by {
      assert |" " + secret| != |secret|;
    }
  }
}
