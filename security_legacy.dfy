/** The legacy router-secret check (app/security_legacy.py): a request gets
    through when any of the secrets it presents is one of the configured
    ones, or when no secret is configured at all. The three environment
    variables are parameters. */
module SecurityLegacy {
  import opened PyText
  import opened AdminGuard

  /** A header or variable that Python's `if x:` accepts: present and
      non-empty. */
  predicate Given(h: Option<string>) {
    h.Some? && h.value != []
  }

  /** `[t for t in values if t]`. */
  function Allowed(values: seq<Option<string>>): (r: seq<string>)
    ensures forall t :: t in r <==> exists k :: 0 <= k < |values| && Given(values[k]) && values[k].value == t
    ensures forall k :: 0 <= k < |r| ==> r[k] != []
  {
    if values == [] then []
    else
      var rest := Allowed(values[1..]);
      assert forall k :: 1 <= k < |values| ==> values[k] == values[1..][k - 1];
      if Given(values[0]) then [values[0].value] + rest else rest
  }

  /** The values a request presents, in the order lines 21-27 append them. */
  function Presented(xRouterSecret: Option<string>, xApiKey: Option<string>, authorization: Option<string>): seq<string> {
    Present(xRouterSecret) + Present(xApiKey) + Listed(BearerToken(authorization))
  }

  /** `[h]` for a header Python's `if h:` accepts, else nothing. */
  function Present(h: Option<string>): (r: seq<string>)
    ensures |r| <= 1 && (forall p :: p in r <==> Given(h) && p == h.value)
  {
    if Given(h) then [h.value] else []
  }

  /** `[v]` for a value that is there (even an empty one), else nothing. */
  function Listed(v: Option<string>): (r: seq<string>)
    ensures |r| <= 1 && (forall p :: p in r <==> v == Some(p))
  {
    if v.Some? then [v.value] else []
  }

  /** The values presented are exactly the non-empty X-Router-Secret, the
      non-empty X-API-Key and the bearer token, and there are at most three. */
  lemma PresentedMembers(xRouterSecret: Option<string>, xApiKey: Option<string>, authorization: Option<string>)
    ensures var ps := Presented(xRouterSecret, xApiKey, authorization);
      && |ps| <= 3
      && forall p :: p in ps <==>
           (Given(xRouterSecret) && p == xRouterSecret.value)
           || (Given(xApiKey) && p == xApiKey.value)
           || BearerToken(authorization) == Some(p)
  {
  }

  /** `require_router_secret(x_router_secret, authorization, x_api_key)` with
      the values of APP_SECRET_KEY, APP_LLM_SECRET and ROUTER_SECRET. */
  method RequireRouterSecret(appSecretKey: Option<string>, appLlmSecret: Option<string>, routerSecret: Option<string>,
                             xRouterSecret: Option<string>, authorization: Option<string>, xApiKey: Option<string>)
      returns (r: Access)
    ensures var allowed := Allowed([appSecretKey, appLlmSecret, routerSecret]);
      r == Granted <==>
        allowed == [] || exists p :: p in Presented(xRouterSecret, xApiKey, authorization) && p in allowed
    ensures r != Granted ==> r == Refused(401, "Unauthorized")
  {
    var allowed := Allowed([appSecretKey, appLlmSecret, routerSecret]);
    if allowed == [] {
      return Granted;
    }
    r := CheckPresented(allowed, xRouterSecret, authorization, xApiKey);
  }

  /** Lines 21-32, once some secret is configured: collect what the request
      presents and look for one of the allowed secrets among it. */
  method CheckPresented(allowed: seq<string>, xRouterSecret: Option<string>, authorization: Option<string>, xApiKey: Option<string>)
      returns (r: Access)
    ensures r == Granted <==> exists p :: p in Presented(xRouterSecret, xApiKey, authorization) && p in allowed
    ensures r != Granted ==> r == Refused(401, "Unauthorized")
  {
    var presented: seq<string> := [];
    if Given(xRouterSecret) {
      presented := presented + [xRouterSecret.value];
    }
    assert presented == Present(xRouterSecret);
    if Given(xApiKey) {
      presented := presented + [xApiKey.value];
    }
    assert presented == Present(xRouterSecret) + Present(xApiKey);
    var bearer := BearerToken(authorization);
    if bearer.Some? {
      presented := presented + [bearer.value];
    }
    assert presented == Present(xRouterSecret) + Present(xApiKey) + Listed(bearer);
    var hit := AnyIn(presented, allowed);
    if hit {
      return Granted;
    }
    return Refused(401, "Unauthorized");
  }

  /** `any(p in allowed for p in presented)`. */
  method AnyIn(presented: seq<string>, allowed: seq<string>) returns (hit: bool)
    ensures hit <==> exists p :: p in presented && p in allowed
  {
    var i := 0;
    while i < |presented|
      invariant i <= |presented|
      invariant forall j :: 0 <= j < i ==> presented[j] !in allowed
    {
      if presented[i] in allowed {
        return true;
      }
      i := i + 1;
    }
    return false;
  }

  // ------------------------------------------------------------- properties

  /** Access in terms of the request's headers: with a secret configured, a
      request gets through exactly when its X-Router-Secret, its X-API-Key or
      its bearer token is one of the configured secrets. An empty header or
      an empty bearer token never matches. */
  lemma LegacyAccessIff(secrets: seq<Option<string>>, xRouterSecret: Option<string>, xApiKey: Option<string>, authorization: Option<string>)
    requires Allowed(secrets) != []
    ensures (exists p :: p in Presented(xRouterSecret, xApiKey, authorization) && p in Allowed(secrets)) <==>
      (xRouterSecret.Some? && xRouterSecret.value in Allowed(secrets))
      || (xApiKey.Some? && xApiKey.value in Allowed(secrets))
      || (BearerToken(authorization).Some? && BearerToken(authorization).value in Allowed(secrets))
  {
    PresentedMembers(xRouterSecret, xApiKey, authorization);
    assert "" !in Allowed(secrets);
  }

  /** The secrets configured are exactly the non-empty variables, and none of
      them counts when all three are unset or empty. */
  lemma NoSecretsConfigured(appSecretKey: Option<string>, appLlmSecret: Option<string>, routerSecret: Option<string>)
    ensures Allowed([appSecretKey, appLlmSecret, routerSecret]) == [] <==>
      !Given(appSecretKey) && !Given(appLlmSecret) && !Given(routerSecret)
  {
    var vs := [appSecretKey, appLlmSecret, routerSecret];
    if Allowed(vs) != [] {
      var t := Allowed(vs)[0];
      assert t in Allowed(vs);
      var k :| 0 <= k < |vs| && Given(vs[k]) && vs[k].value == t;
      assert k == 0 || k == 1 || k == 2;
    }
    if Given(appSecretKey) { assert appSecretKey.value in Allowed(vs) by { assert vs[0] == appSecretKey; } }
    if Given(appLlmSecret) { assert appLlmSecret.value in Allowed(vs) by { assert vs[1] == appLlmSecret; } }
    if Given(routerSecret) { assert routerSecret.value in Allowed(vs) by { assert vs[2] == routerSecret; } }
  }
}
