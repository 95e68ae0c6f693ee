/** `SecurityConfig`: the JWT claims-to-authorities converter and the
    ordered, first-match authorization rules of the filter chain. */
module Security {
  import opened Common

  /** `new SimpleGrantedAuthority("ROLE_" + text.toUpperCase())`. */
  function Authority(text: string): (a: string)
    ensures |a| == 5 + |text| && a[..5] == "ROLE_"
    ensures a[5..] == ToUpper(text)
  {
    "ROLE_" + ToUpper(text)
  }

  /** SecurityConfig.java lines 47-53: a non-null claim read as a string gives one authority. */
  function ClaimAuthority(claim: Json): (r: seq<string>)
    ensures claim.JNull? ==> r == []
    ensures !claim.JNull? ==> r == [Authority(JsonText(claim))]
  {
    if claim.JNull? then [] else [Authority(JsonText(claim))]
  }

  /** SecurityConfig.java lines 56-65: the authorities of a `roles` list, in list order. Each
      element is used as a `String`: a null one fails `toUpperCase`, any other
      non-string one fails the cast, and the first failure wins. */
  function RoleAuthorities(items: seq<Json>): (r: Result<seq<string>>)
    ensures r.Ok? <==> forall i :: 0 <= i < |items| ==> items[i].JString?
    ensures r.Ok? ==> |r.value| == |items| && forall i :: 0 <= i < |items| ==> r.value[i] == Authority(items[i].s)
  {
    if items == [] then Ok([])
    else
      var last := items[|items| - 1];
      match RoleAuthorities(items[..|items| - 1])
      case Err(e) => Err(e)
      case Ok(front) =>
        match last
        case JString(s) => Ok(front + [Authority(s)])
        case JNull => Err(Error(NullPointer, ""))
        case _ => Err(Error(ClassCast, ""))
  }

  /** The converter's result: `role`, `user_role`, the `roles` list (only when
      it is a list), then the scope authorities. */
  function Authorities(claims: map<string, Json>, scopes: seq<string>): (r: Result<seq<string>>)
    ensures !Get(claims, "roles").JArray? ==>
      r == Ok(ClaimAuthority(Get(claims, "role")) + ClaimAuthority(Get(claims, "user_role")) + scopes)
    ensures Get(claims, "roles").JArray? && RoleAuthorities(Get(claims, "roles").items).Ok? ==>
      r == Ok(ClaimAuthority(Get(claims, "role")) + ClaimAuthority(Get(claims, "user_role"))
              + RoleAuthorities(Get(claims, "roles").items).value + scopes)
    ensures r.Err? <==> Get(claims, "roles").JArray? && RoleAuthorities(Get(claims, "roles").items).Err?
  {
    var base := ClaimAuthority(Get(claims, "role")) + ClaimAuthority(Get(claims, "user_role"));
    match Get(claims, "roles")
    case JArray(items) =>
      (match RoleAuthorities(items)
       case Err(e) => Err(e)
       case Ok(roles) => Ok(base + roles + scopes))
    case _ => Ok(base + scopes)
  }

  /** The converter lambda: authorities collected into a list one by one. */
  method ConvertAuthorities(claims: map<string, Json>, scopes: seq<string>) returns (r: Result<seq<string>>)
    ensures r == Authorities(claims, scopes)
  {
    var authorities: seq<string> := [];
    var role := Get(claims, "role");
    if role != JNull {
      authorities := authorities + [Authority(JsonText(role))];
    }
    var userRole := Get(claims, "user_role");
    if userRole != JNull {
      authorities := authorities + [Authority(JsonText(userRole))];
    }
    var base := authorities;
    assert base == ClaimAuthority(role) + ClaimAuthority(userRole);
    var rolesObj := Get(claims, "roles");
    if rolesObj.JArray? {
      var withRoles := AppendRoles(authorities, rolesObj.items);
      if withRoles.Err? {
        return withRoles;
      }
      authorities := withRoles.value;
    }
    r := Ok(authorities + scopes);
  }

  /** The converter's `roles` loop: each element appended in turn, the first
      one that is not text ending the conversion. */
  method AppendRoles(authorities: seq<string>, items: seq<Json>) returns (r: Result<seq<string>>)
    ensures RoleAuthorities(items).Err? ==> r == RoleAuthorities(items)
    ensures RoleAuthorities(items).Ok? ==> r == Ok(authorities + RoleAuthorities(items).value)
  {
    var acc := authorities;
    var i := 0;
    while i < |items|
      invariant 0 <= i <= |items|
      invariant RoleAuthorities(items[..i]).Ok?
      invariant acc == authorities + RoleAuthorities(items[..i]).value
    {
      assert items[..i + 1][..i] == items[..i];
      match items[i] {
        case JString(s) =>
          var front := RoleAuthorities(items[..i]).value;
          assert RoleAuthorities(items[..i + 1]) == Ok(front + [Authority(s)]);
          assert authorities + front + [Authority(s)] == authorities + (front + [Authority(s)]);
          acc := acc + [Authority(s)];
        case JNull =>
          RoleFailurePersists(items, i);
          return Err(Error(NullPointer, ""));
        case _ =>
          RoleFailurePersists(items, i);
          return Err(Error(ClassCast, ""));
      }
      i := i + 1;
    }
    assert items[..i] == items;
    r := Ok(acc);
  }

  /** The first bad element of a prefix decides the failure for the whole list. */
  lemma {:induction false} RoleFailurePersists(items: seq<Json>, i: int)
    requires 0 <= i < |items| && RoleAuthorities(items[..i]).Ok? && !items[i].JString?
    ensures RoleAuthorities(items) == Err(Error(if items[i].JNull? then NullPointer else ClassCast, ""))
    decreases |items| - i
  {
    if i + 1 == |items| {
      assert items[..|items| - 1] == items[..i];
    } else {
      var shorter := items[..|items| - 1];
      assert shorter[..i] == items[..i];
      RoleFailurePersists(shorter, i);
    }
  }

  /** "admin" in any letter case becomes the authority ROLE_ADMIN. */
  lemma AdminAuthority(text: string)
    requires IsAdminText(text)
    ensures Authority(text) == "ROLE_ADMIN"
  {
    UpperIsAdmin(text);
    assert "ROLE_" + "ADMIN" == "ROLE_ADMIN";
  }

  /** The claim authorities open the converter's list. */
  lemma {:induction false} ClaimsComeFirst(claims: map<string, Json>, scopes: seq<string>)
    requires Authorities(claims, scopes).Ok?
    ensures var base := ClaimAuthority(Get(claims, "role")) + ClaimAuthority(Get(claims, "user_role"));
      |base| <= |Authorities(claims, scopes).value| && Authorities(claims, scopes).value[..|base|] == base
  {
    var r := Authorities(claims, scopes).value;
    var base := ClaimAuthority(Get(claims, "role")) + ClaimAuthority(Get(claims, "user_role"));
    if Get(claims, "roles").JArray? {
      var roles := RoleAuthorities(Get(claims, "roles").items).value;
      assert r == base + (roles + scopes);
    } else {
      assert r == base + scopes;
    }
  }

  /** An "admin" role or user_role claim, in any letter case, yields ROLE_ADMIN. */
  lemma {:induction false} AdminClaimGrantsAdmin(claims: map<string, Json>, scopes: seq<string>)
    requires Authorities(claims, scopes).Ok?
    requires (Get(claims, "role").JString? && IsAdminText(Get(claims, "role").s))
          || (Get(claims, "user_role").JString? && IsAdminText(Get(claims, "user_role").s))
    ensures "ROLE_ADMIN" in Authorities(claims, scopes).value
  {
    var r := Authorities(claims, scopes).value;
    var role := Get(claims, "role");
    var userRole := Get(claims, "user_role");
    var base := ClaimAuthority(role) + ClaimAuthority(userRole);
    ClaimsComeFirst(claims, scopes);
    assert r[..|base|] == base;
    if role.JString? && IsAdminText(role.s) {
      AdminAuthority(role.s);
      assert base[0] == "ROLE_ADMIN";
      assert r[0] == base[0];
    } else {
      AdminAuthority(userRole.s);
      var i := |ClaimAuthority(role)|;
      assert base[i] == "ROLE_ADMIN";
      assert r[i] == base[i];
    }
  }

  /** The authorities come out in claim order: `role` first when present. */
  lemma RoleComesFirst(claims: map<string, Json>, scopes: seq<string>)
    requires Authorities(claims, scopes).Ok? && Get(claims, "role") != JNull
    ensures Authorities(claims, scopes).value[0] == Authority(JsonText(Get(claims, "role")))
  {
  }

  /** The scope authorities are always the tail of the list. */
  lemma {:induction false} ScopesComeLast(claims: map<string, Json>, scopes: seq<string>)
    requires Authorities(claims, scopes).Ok?
    ensures var r := Authorities(claims, scopes).value;
      |scopes| <= |r| && r[|r| - |scopes|..] == scopes
  {
    var r := Authorities(claims, scopes).value;
    var base := ClaimAuthority(Get(claims, "role")) + ClaimAuthority(Get(claims, "user_role"));
    if Get(claims, "roles").JArray? {
      var roles := RoleAuthorities(Get(claims, "roles").items).value;
      assert r == (base + roles) + scopes;
    } else {
      assert r == base + scopes;
    }
  }

  // ---------------------------------------------------------------------
  // Path rules

  /** A request matcher: an Ant-style pattern, or `anyRequest()`. */
  datatype Matcher = Pattern(text: string) | AnyRequest

  /** What a rule demands of the caller. */
  datatype Access = PermitAll | HasRole(role: string) | Authenticated

  datatype Rule = Rule(matchers: seq<Matcher>, access: Access)

  /** A pattern ending in a slash and a double star matches the text before
      that suffix and everything below it; any other pattern matches only
      itself. */
  predicate PatternMatches(pattern: string, path: string) {
    if |pattern| >= 3 && pattern[|pattern| - 3..] == "/**" then
      var base := pattern[..|pattern| - 3];
      path == base || StartsWith(path, base + "/")
    else path == pattern
  }

  predicate Matches(m: Matcher, path: string) {
    match m
    case AnyRequest => true
    case Pattern(p) => PatternMatches(p, path)
  }

  predicate RuleMatches(rule: Rule, path: string) {
    exists i :: 0 <= i < |rule.matchers| && Matches(rule.matchers[i], path)
  }

  /** SecurityConfig.java lines 85-87, in order. */
  const Rules: seq<Rule> := [
    Rule([Pattern("/api/v1/public/**"), Pattern("/auth/**"), Pattern("/actuator/health")], PermitAll),
    Rule([Pattern("/api/v1/admin/**")], HasRole("ADMIN")),
    Rule([AnyRequest], Authenticated)
  ]

  /** The access demanded by the first rule that matches. */
  function Decide(rules: seq<Rule>, path: string): (r: Option<Access>)
    ensures r.Some? ==> exists i :: 0 <= i < |rules| && RuleMatches(rules[i], path) && rules[i].access == r.value
                                    && forall j :: 0 <= j < i ==> !RuleMatches(rules[j], path)
    ensures r.None? <==> forall i :: 0 <= i < |rules| ==> !RuleMatches(rules[i], path)
  {
    if rules == [] then None
    else if RuleMatches(rules[0], path) then Some(rules[0].access)
    else
      var r := Decide(rules[1..], path);
      assert forall i :: 1 <= i < |rules| ==> rules[i] == rules[1..][i - 1];
      r
  }

  /** Whether a request passes: `hasRole("ADMIN")` looks for ROLE_ADMIN. */
  predicate Allowed(path: string, authenticated: bool, authorities: seq<string>) {
    match Decide(Rules, path)
    case None => false
    case Some(PermitAll) => true
    case Some(HasRole(role)) => authenticated && "ROLE_" + role in authorities
    case Some(Authenticated) => authenticated
  }

  predicate PublicPath(path: string) {
    PatternMatches("/api/v1/public/**", path) || PatternMatches("/auth/**", path) || path == "/actuator/health"
  }

  predicate AdminPath(path: string) {
    PatternMatches("/api/v1/admin/**", path)
  }

  lemma {:induction false} DecideRules(path: string)
    ensures PublicPath(path) ==> Decide(Rules, path) == Some(PermitAll)
    ensures !PublicPath(path) && AdminPath(path) ==> Decide(Rules, path) == Some(HasRole("ADMIN"))
    ensures !PublicPath(path) && !AdminPath(path) ==> Decide(Rules, path) == Some(Authenticated)
  {
    var m0 := Rules[0].matchers;
    assert RuleMatches(Rules[0], path) <==> PublicPath(path) by {
      if PublicPath(path) {
        if PatternMatches("/api/v1/public/**", path) { assert Matches(m0[0], path); }
        else if PatternMatches("/auth/**", path) { assert Matches(m0[1], path); }
        else { assert Matches(m0[2], path); }
      }
    }
    assert RuleMatches(Rules[1], path) <==> AdminPath(path) by {
      if AdminPath(path) { assert Matches(Rules[1].matchers[0], path); }
    }
    assert RuleMatches(Rules[2], path) by {
      assert Matches(Rules[2].matchers[0], path);
    }
    assert Rules[1..][1..] == [Rules[2]];
    assert Rules[1..][0] == Rules[1];
  }

  /** `/auth` and everything under `/auth/` is public, whatever the later rules say. */
  lemma AuthIsPublic(path: string, authenticated: bool, authorities: seq<string>)
    requires path == "/auth" || StartsWith(path, "/auth/")
    ensures Allowed(path, authenticated, authorities)
  {
    DecideRules(path);
  }

  /** No admin path is also a public one: they differ in their first characters. */
  lemma {:induction false} AdminPathsAreNotPublic(path: string)
    requires AdminPath(path)
    ensures !PublicPath(path)
  {
    PrefixChar(path, "/api/v1/admin/", 2);
    PrefixChar(path, "/api/v1/admin/", 8);
    assert path[2] == 'p' && path[8] == 'a';
    PrefixChar(path, "/api/v1/public/", 8);
    PrefixChar(path, "/auth/", 2);
  }

  lemma PrefixChar(s: string, w: string, i: int)
    requires 0 <= i < |w|
    ensures StartsWith(s, w) ==> s[i] == w[i]
  {
    if StartsWith(s, w) {
      assert s[..|w|][i] == w[i];
    }
  }

  /** An admin path is allowed exactly to authenticated holders of ROLE_ADMIN. */
  lemma {:induction false} AdminNeedsAdminRole(path: string, authenticated: bool, authorities: seq<string>)
    requires AdminPath(path)
    ensures Allowed(path, authenticated, authorities) <==> authenticated && "ROLE_ADMIN" in authorities
  {
    AdminPathsAreNotPublic(path);
    DecideRules(path);
    assert "ROLE_" + "ADMIN" == "ROLE_ADMIN";
  }

  /** Any other path needs only authentication. */
  lemma {:induction false} OtherPathsNeedAuthentication(path: string, authenticated: bool, authorities: seq<string>)
    requires !PublicPath(path) && !AdminPath(path)
    ensures Allowed(path, authenticated, authorities) <==> authenticated
  {
    DecideRules(path);
  }

  /** An "admin" role claim opens the admin paths to an authenticated caller. */
  lemma {:induction false} AdminClaimOpensAdminPaths(path: string, claims: map<string, Json>, scopes: seq<string>)
    requires AdminPath(path) && Authorities(claims, scopes).Ok?
    requires Get(claims, "role").JString? && IsAdminText(Get(claims, "role").s)
    ensures Allowed(path, true, Authorities(claims, scopes).value)
  {
    AdminClaimGrantsAdmin(claims, scopes);
    AdminNeedsAdminRole(path, true, Authorities(claims, scopes).value);
  }
}
