/**
 * `RoleBasedAccessMiddleware`: the decision taken on every request from
 * its path, what the URL resolver made of it, and the user. The resolver
 * is a parameter: `None` when it raises for the path.
 */
module AccessMiddleware {
  import opened Common
  import opened PyStr
  import opened Decorators

  /** URL names reachable without logging in. */
  const PublicUrls: seq<string> := ["login", "logout", "admin:index", "admin:login"]

  /** The URL-name prefixes each role may reach. */
  const OperatorPrefixes: seq<string> := ["operator:", "api:operator:"]
  const MasterPrefixes: seq<string> := ["master:", "operator:", "api:master:", "api:operator:"]
  const ChiefPrefixes: seq<string> := ["analytics:", "master:", "operator:", "api:"]

  /** The role table; the administrator's `None` stands for every URL. */
  const RoleUrlPrefixes: map<string, Option<seq<string>>> := map[
    OperatorRole := Some(OperatorPrefixes),
    MasterRole := Some(MasterPrefixes),
    ChiefRole := Some(ChiefPrefixes),
    AdminRole := None]

  /** Names of pages every logged-in user may open. */
  const CommonPages: seq<string> := ["home", "profile", "change_pin"]

  /** What the resolver returns: the namespace (empty for none) and the pattern's name, if it has one. */
  datatype Match = Match(namespace: string, urlName: Option<string>)

  /** The middleware's answer. */
  datatype Response =
    | PassThrough               // the next handler runs
    | LoginWithNext(path: string)  // redirect to the login page, coming back to `path`
    | ToLogin                   // redirect to the login page
    | ToHome                    // redirect to the home page
    | Crash                     // an exception escapes the middleware

  /** Paths served without any check: static files, media and the framework's admin site. */
  predicate Bypassed(path: string) {
    StartsWith(path, "/static/") || StartsWith(path, "/media/") || StartsWith(path, "/admin/")
  }

  /** How a missing name is rendered inside an f-string. */
  function NameText(name: Option<string>): string {
    if name.Some? then name.value else "None"
  }

  /** `namespace:name`, or just the name when there is no namespace; `None` when resolving failed. */
  function FullUrlName(m: Option<Match>): (n: Option<string>)
    ensures m.None? ==> n.None?
    ensures m.Some? && m.value.namespace == [] ==> n == m.value.urlName
    ensures m.Some? && m.value.namespace != [] ==>
      n.Some? && StartsWith(n.value, m.value.namespace + ":") && n.value != []
  {
    match m
    case None => None
    case Some(Match(ns, name)) =>
      if ns != [] then
        var full := ns + ":" + NameText(name);
        assert full[..|ns + ":"|] == ns + ":";
        Some(full)
      else name
  }

  /** `ROLE_URL_PREFIXES.get(role)`: `None` both for the administrator and for an unknown role. */
  function PrefixesFor(role: string): (p: Option<seq<string>>)
    ensures p.Some? <==> role in {OperatorRole, MasterRole, ChiefRole}
  {
    if role in RoleUrlPrefixes then RoleUrlPrefixes[role] else None
  }

  /** The loop over the allowed prefixes: does the name start with one of them? */
  function MatchesPrefix(name: string, prefixes: seq<string>): (r: bool)
    ensures r <==> exists k :: 0 <= k < |prefixes| && StartsWith(name, prefixes[k])
  {
    if prefixes == [] then false
    else StartsWith(name, prefixes[0]) || MatchesPrefix(name, prefixes[1..])
  }

  /** The name passes the role's prefix check: it is non-empty and starts with an allowed prefix. */
  predicate PrefixAllows(full: Option<string>, allowed: seq<string>) {
    full.Some? && full.value != [] && MatchesPrefix(full.value, allowed)
  }

  /** The bare pattern name is one of the common pages. */
  predicate IsCommonPage(m: Match) {
    m.urlName.Some? && m.urlName.value in CommonPages
  }

  /**
   * `__call__` as written. When resolving fails, `url_name` is never bound,
   * so the common-page test raises for a logged-in user with a known role.
   */
  function DecideAsWritten(path: string, resolved: Option<Match>, u: User): Response {
    if Bypassed(path) then PassThrough
    else
      var full := FullUrlName(resolved);
      if full.Some? && full.value in PublicUrls then PassThrough
      else if !u.isAuthenticated then LoginWithNext(path)
      else if IsAdmin(u) || u.isSuperuser then PassThrough
      else
        var allowed := PrefixesFor(u.role);
        if allowed.None? then ToLogin
        else if PrefixAllows(full, allowed.value) then PassThrough
        else if resolved.None? then Crash
        else if IsCommonPage(resolved.value) then PassThrough
        else ToHome
  }

  /** `__call__` with an unresolvable path treated as having no name: refused like any other. */
  function Decide(path: string, resolved: Option<Match>, u: User): (r: Response)
    ensures r != Crash
    ensures Bypassed(path) ==> r == PassThrough
    ensures !Bypassed(path) && FullUrlName(resolved).Some? && FullUrlName(resolved).value in PublicUrls
            ==> r == PassThrough
    ensures !u.isAuthenticated ==> r == PassThrough || r == LoginWithNext(path)
    ensures !Bypassed(path) && !(FullUrlName(resolved).Some? && FullUrlName(resolved).value in PublicUrls)
            && !u.isAuthenticated
            ==> r == LoginWithNext(path)
    ensures u.isAuthenticated && (IsAdmin(u) || u.isSuperuser) ==> r == PassThrough
    ensures r == ToLogin <==>
      && !Bypassed(path) && u.isAuthenticated && !IsAdmin(u) && !u.isSuperuser
      && !(FullUrlName(resolved).Some? && FullUrlName(resolved).value in PublicUrls)
      && PrefixesFor(u.role).None?
  {
    if Bypassed(path) then PassThrough
    else
      var full := FullUrlName(resolved);
      if full.Some? && full.value in PublicUrls then PassThrough
      else if !u.isAuthenticated then LoginWithNext(path)
      else if IsAdmin(u) || u.isSuperuser then PassThrough
      else
        var allowed := PrefixesFor(u.role);
        if allowed.None? then ToLogin
        else if PrefixAllows(full, allowed.value) then PassThrough
        else if resolved.Some? && IsCommonPage(resolved.value) then PassThrough
        else ToHome
  }

  /**
   * For a logged-in user with a role in the table, a request passes exactly
   * when it is bypassed, public, under one of the role's prefixes, or a
   * common page; everything else goes home.
   */
  lemma KnownRoleAccess(path: string, resolved: Option<Match>, u: User)
    requires u.isAuthenticated && !u.isSuperuser && PrefixesFor(u.role).Some?
    ensures Decide(path, resolved, u) == PassThrough <==>
      || Bypassed(path)
      || (FullUrlName(resolved).Some? && FullUrlName(resolved).value in PublicUrls)
      || PrefixAllows(FullUrlName(resolved), PrefixesFor(u.role).value)
      || (resolved.Some? && IsCommonPage(resolved.value))
    ensures Decide(path, resolved, u) != PassThrough ==> Decide(path, resolved, u) == ToHome
  {
  }

  /** A prefix of a prefix is a prefix. */
  lemma StartsWithShorter(s: string, longer: string, shorter: string)
    requires StartsWith(s, longer) && StartsWith(longer, shorter)
    ensures StartsWith(s, shorter)
  {
    assert s[..|shorter|] == s[..|longer|][..|shorter|];
  }

  /**
   * The role table is nested: whatever an operator may open, a master may,
   * and whatever a master may open, a chief may.
   */
  lemma RolePrefixesNested(path: string, resolved: Option<Match>)
    ensures Decide(path, resolved, User(true, OperatorRole, false)) == PassThrough
            ==> Decide(path, resolved, User(true, MasterRole, false)) == PassThrough
    ensures Decide(path, resolved, User(true, MasterRole, false)) == PassThrough
            ==> Decide(path, resolved, User(true, ChiefRole, false)) == PassThrough
  {
    var full := FullUrlName(resolved);
    if PrefixAllows(full, OperatorPrefixes) {
      var k :| 0 <= k < |OperatorPrefixes| && StartsWith(full.value, OperatorPrefixes[k]);
      assert StartsWith(full.value, MasterPrefixes[if k == 0 then 1 else 3]);
    }
    if PrefixAllows(full, MasterPrefixes) {
      var k :| 0 <= k < |MasterPrefixes| && StartsWith(full.value, MasterPrefixes[k]);
      if k == 2 || k == 3 {
        StartsWithShorter(full.value, MasterPrefixes[k], "api:");
      }
      assert StartsWith(full.value, ChiefPrefixes[if k == 0 then 1 else if k == 1 then 2 else 3]);
    }
  }

  /**
   * The two versions differ only where the written code raises: an
   * unresolvable path requested by a logged-in, non-administrator user
   * whose role is in the table.
   */
  lemma AsWrittenDiffersOnlyByCrash(path: string, resolved: Option<Match>, u: User)
    ensures DecideAsWritten(path, resolved, u) == Crash <==>
      && !Bypassed(path) && resolved.None? && u.isAuthenticated && !IsAdmin(u) && !u.isSuperuser
      && PrefixesFor(u.role).Some?
    ensures DecideAsWritten(path, resolved, u) != Crash ==> DecideAsWritten(path, resolved, u) == Decide(path, resolved, u)
    ensures DecideAsWritten(path, resolved, u) == Crash ==> Decide(path, resolved, u) == ToHome
  {
  }

  /** An operator requesting a path the resolver does not know makes the written code raise. */
  lemma UnknownPathCrashesForOperator()
    ensures DecideAsWritten("/no-such-page/", None, User(true, OperatorRole, false)) == Crash
    ensures Decide("/no-such-page/", None, User(true, OperatorRole, false)) == ToHome
  {
    DiffersAt("/no-such-page/", "/static/", 1);
    DiffersAt("/no-such-page/", "/media/", 1);
    DiffersAt("/no-such-page/", "/admin/", 1);
  }

  /** A string that differs from a candidate prefix at some position does not start with it. */
  lemma DiffersAt(s: string, prefix: string, i: nat)
    requires i < |prefix| && i < |s| && s[i] != prefix[i]
    ensures !StartsWith(s, prefix)
  {
    if |prefix| <= |s| {
      assert s[..|prefix|][i] == s[i];
    }
  }
}
