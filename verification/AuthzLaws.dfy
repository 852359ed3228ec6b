/**
 * What Can answers (internal/authz/principal.go, internal/authz/scope.go), as laws about
 * principals and resources rather than about one binding or scope.
 */
module AuthorizationLaws {
  import Globs
  import opened Authorization

  // -------------------------------------------------------------------------- everybody

  /** tenant:manage and kek:manage are held by the system and by platform admins only; unknown ones by nobody. */
  lemma PlatformPermissions(p: Principal, perm: Permission, r: Resource)
    ensures perm.Unknown? ==> !Can(p, perm, r)
    ensures perm.TenantManage? || perm.KEKManage? ==> (Can(p, perm, r) <==> p.System? || (p.User? && p.platformAdmin))
    ensures (p.System? || (p.User? && p.platformAdmin)) && !perm.Unknown? ==> Can(p, perm, r)
    ensures p.Nil? || p.OtherKind? ==> !Can(p, perm, r)
  {
  }

  /** A malformed resource, without a tenant or with a site but no namespace, is nobody's. */
  lemma MalformedResource(p: Principal, perm: Permission, r: Resource)
    requires !p.System? && !(p.User? && p.platformAdmin) && (r.tenant == 0 || (r.site != 0 && r.namespace == 0))
    ensures !Can(p, perm, r)
  {
  }

  // ------------------------------------------------------------------------------ users

  /** A user holds a permission exactly when one binding alone gives it. */
  lemma OneBindingDecides(bindings: seq<Binding>, perm: Permission, r: Resource)
    ensures Can(User(false, bindings), perm, r) <==>
            exists b :: b in bindings && Can(User(false, [b]), perm, r)
  {
    forall b | b in bindings
      ensures Can(User(false, [b]), perm, r) <==>
              ValidPermission(perm) && !PlatformOnly(perm) && WellFormed(r) && BindingAllows(b, perm, r)
    {
      assert b in [b];
    }
  }

  /** A binding reaches the resource: same tenant, its namespace or all, and its sites or all. */
  predicate Reaches(b: Binding, r: Resource) {
    && r.tenant != 0 && b.tenant == r.tenant && (b.namespace == 0 || b.namespace == r.namespace)
    && (r.site != 0 ==> r.namespace != 0)
    && (b.sites == [] || r.site in b.sites) && (b.sites != [] ==> r.site != 0)
  }

  /** The four permissions a binding may list beside its role. */
  predicate MayBeExtra(perm: Permission) {
    perm.ConfigPublish? || perm.SecretReveal? || perm.IdentityReveal? || perm.PolicyPublish?
  }

  /** For viewers and operators such a permission depends on the list alone. */
  lemma ExtraDecides(b: Binding, perm: Permission, r: Resource)
    requires Reaches(b, r) && MayBeExtra(perm) && (b.role.Viewer? || b.role.Operator?)
    ensures Can(User(false, [b]), perm, r) <==> perm in b.extra
  {
    assert b in [b];
  }

  /** No other permission does, whatever the bindings are. */
  lemma OtherExtrasMeanNothing(b: Binding, perm: Permission, r: Resource)
    requires !MayBeExtra(perm)
    ensures Can(User(false, [b]), perm, r) <==> Can(User(false, [b.(extra := [])]), perm, r)
  {
    assert b in [b] && b.(extra := []) in [b.(extra := [])];
  }

  /** A binding with an unknown role gives nothing, with whatever extras. */
  lemma UnknownRoleGivesNothing(b: Binding, perm: Permission, r: Resource)
    requires b.role.UnknownRole?
    ensures !Can(User(false, [b]), perm, r)
  {
  }

  function Rank(role: Role): nat {
    match role
    case Owner => 4
    case Admin => 3
    case Operator => 2
    case Viewer => 1
    case UnknownRole(_) => 0
  }

  /** A higher role never loses a permission. */
  lemma RolesAreNested(b: Binding, role: Role, perm: Permission, r: Resource)
    requires Rank(b.role) <= Rank(role) && Can(User(false, [b]), perm, r)
    ensures Can(User(false, [b.(role := role)]), perm, r)
  {
    assert b in [b] && b.(role := role) in [b.(role := role)];
  }

  /** The least role that has a permission; above all of them for those no role has. */
  function LeastRank(perm: Permission): nat {
    match perm
    case TenantManage => 5
    case KEKManage => 5
    case LeaseAcquire => 5
    case ReportWrite => 5
    case SecretRead => 5
    case Unknown(_) => 5
    case NamespaceWrite => 4
    case UserRead => 4
    case UserWrite => 4
    case SiteWrite => 3
    case PolicyPublish => 3
    case ConfigPublish => 3
    case SecretWrite => 3
    case SecretReveal => 3
    case IdentityReveal => 3
    case TokenRead => 3
    case TokenWrite => 3
    case NotifyWrite => 3
    case IdentityWrite => 2
    case IdentityOperate => 2
    case ProxyWrite => 2
    case ProxyOperate => 2
    case PolicyWrite => 2
    case ConfigWrite => 2
    case BreakerOperate => 2
    case _ => 1
  }

  /** Where a binding reaches, its role decides, up to the listed extras. */
  lemma RankDecides(b: Binding, perm: Permission, r: Resource)
    requires Reaches(b, r)
    ensures Can(User(false, [b]), perm, r) <==>
            Rank(b.role) > 0 && (Rank(b.role) >= LeastRank(perm) || (MayBeExtra(perm) && perm in b.extra))
  {
    RoleRank(b.role, perm);
    assert b in [b];
  }

  lemma RoleRank(role: Role, perm: Permission)
    ensures RoleHas(role, perm) <==> Rank(role) > 0 && Rank(role) >= LeastRank(perm)
    ensures PlatformOnly(perm) || !ValidPermission(perm) ==> LeastRank(perm) == 5 && !MayBeExtra(perm)
  {
  }

  /** A user without a binding in the tenant, or in its namespace, holds nothing there. */
  lemma UsersAreIsolated(bindings: seq<Binding>, perm: Permission, r: Resource)
    requires forall b :: b in bindings ==> b.tenant != r.tenant || (b.namespace != 0 && b.namespace != r.namespace)
    ensures !Can(User(false, bindings), perm, r)
  {
  }

  /**
   * Namespace-level resources and site-restricted bindings: they give proxy:read and
   * namespace:read, where they are pinned to the namespace, and nothing else.
   */
  lemma SiteRestrictedAllowance(bindings: seq<Binding>, perm: Permission, r: Resource)
    requires r.site == 0 && r.tenant != 0 && forall b :: b in bindings ==> b.sites != []
    ensures Can(User(false, bindings), perm, r) <==>
            && (perm.ProxyRead? || perm.NamespaceRead?) && r.namespace != 0
            && exists b :: b in bindings && b.tenant == r.tenant && b.namespace == r.namespace && !b.role.UnknownRole?
  {
  }

  /** On a site, a site-restricted binding gives what an unrestricted one gives, on its sites only. */
  lemma SiteRestrictionIsExact(b: Binding, perm: Permission, r: Resource)
    requires r.site != 0 && b.sites != []
    ensures Can(User(false, [b]), perm, r) <==> r.site in b.sites && Can(User(false, [b.(sites := [])]), perm, r)
  {
    assert b in [b] && b.(sites := []) in [b.(sites := [])];
  }

  // ----------------------------------------------------------------------------- tokens

  /** A token holds nothing outside its tenant and namespace, and nothing on tenant-level resources. */
  lemma TokensAreIsolated(p: Principal, perm: Permission, r: Resource)
    requires p.Token? && (p.tenant != r.tenant || p.namespace != r.namespace || r.namespace == 0)
    ensures !Can(p, perm, r)
  {
  }

  /** A token without a tenant or a namespace of its own holds nothing and sees no site. */
  lemma UnboundTokens(p: Principal, perm: Permission, r: Resource, tenant: Id, namespace: Id, site: Id)
    requires p.Token? && (p.tenant == 0 || p.namespace == 0)
    ensures !Can(p, perm, r) && !Admits(p, tenant, namespace, perm, site)
  {
  }

  /** The resource lies in the token's own namespace. */
  predicate AtHome(p: Principal, r: Resource)
    requires p.Token?
  {
    r.tenant != 0 && r.namespace != 0 && p.tenant == r.tenant && p.namespace == r.namespace
  }

  /** The scope covers the config group: it names none, or a pattern that matches it. */
  ghost predicate CoversGroup(s: Scope, group: string) {
    s.arg == "" || Globs.Matches(s.arg, group)
  }

  ghost predicate ReadsConfig(s: Scope, group: string) {
    || s == Scope(AdminScope, "")
    || ((s.name.ConfigReadScope? || s.name.ConfigPublishScope?) && CoversGroup(s, group))
  }

  ghost predicate PublishesConfig(s: Scope, group: string) {
    s == Scope(AdminScope, "") || (s.name.ConfigPublishScope? && CoversGroup(s, group))
  }

  /** Config permissions of a token: by an admin scope, or by a config scope whose pattern covers the group. */
  lemma TokenConfig(p: Principal, r: Resource)
    requires p.Token? && AtHome(p, r)
    ensures Can(p, ConfigRead, r) <==> exists s :: s in p.scopes && ReadsConfig(s, r.configGroup)
    ensures Can(p, ConfigPublish, r) <==> exists s :: s in p.scopes && PublishesConfig(s, r.configGroup)
  {
    forall s | s in p.scopes
      ensures ScopeAllows(s, ConfigRead, r, p.namespaceName) <==> ReadsConfig(s, r.configGroup)
      ensures ScopeAllows(s, ConfigPublish, r, p.namespaceName) <==> PublishesConfig(s, r.configGroup)
    {
    }
  }

  /** The namespace name a secret is looked up under: the resource's, or else the token's. */
  function NameFor(p: Principal, r: Resource): string
    requires p.Token?
  {
    if r.namespaceName == "" then p.namespaceName else r.namespaceName
  }

  /**
   * Secrets of a token: only by a secret scope whose pattern matches the name and the path,
   * in the token's own namespace by name too, and only for a path in canonical form. An
   * admin scope does not read secrets.
   */
  lemma TokenSecrets(p: Principal, r: Resource)
    requires p.Token? && AtHome(p, r)
    ensures Can(p, SecretRead, r) <==>
            && NameFor(p, r) != "" && (p.namespaceName == "" || NameFor(p, r) == p.namespaceName)
            && CleanSecretPath(r.secretPath)
            && exists s :: s in p.scopes && s.name.SecretReadScope? && s.arg != ""
                 && Globs.Matches(s.arg, NameFor(p, r) + "/" + r.secretPath)
  {
    forall s | s in p.scopes
      ensures ScopeAllows(s, SecretRead, r, p.namespaceName) <==>
                && NameFor(p, r) != "" && (p.namespaceName == "" || NameFor(p, r) == p.namespaceName)
                && CleanSecretPath(r.secretPath) && s.name.SecretReadScope? && s.arg != ""
                && Globs.Matches(s.arg, NameFor(p, r) + "/" + r.secretPath)
    {
    }
  }

  /** The scope is of that name and covers the site: it names none, or this one. */
  predicate CoversSite(s: Scope, name: ScopeName, site: string) {
    s.name == name && (s.arg == "" || s.arg == site)
  }

  /** Leases and reports of a token: by a scope of that name only, for the site it names if it names one. */
  lemma TokenNodes(p: Principal, r: Resource)
    requires p.Token? && AtHome(p, r)
    ensures Can(p, LeaseAcquire, r) <==> exists s :: s in p.scopes && CoversSite(s, LeaseAcquireScope, r.siteName)
    ensures Can(p, ReportWrite, r) <==> exists s :: s in p.scopes && CoversSite(s, ReportWriteScope, r.siteName)
  {
    forall s | s in p.scopes
      ensures ScopeAllows(s, LeaseAcquire, r, p.namespaceName) <==> CoversSite(s, LeaseAcquireScope, r.siteName)
      ensures ScopeAllows(s, ReportWrite, r, p.namespaceName) <==> CoversSite(s, ReportWriteScope, r.siteName)
    {
    }
  }

  predicate OperatesIdentities(s: Scope, site: string) {
    s == Scope(AdminScope, "") || CoversSite(s, IdentityWriteScope, site)
  }

  predicate OperatesProxies(s: Scope) {
    s == Scope(AdminScope, "") || s == Scope(ProxyWriteScope, "")
  }

  /** Identities and proxies of a token: by an admin scope or by the scope for them. */
  lemma TokenOperations(p: Principal, r: Resource)
    requires p.Token? && AtHome(p, r)
    ensures Can(p, IdentityOperate, r) <==> exists s :: s in p.scopes && OperatesIdentities(s, r.siteName)
    ensures Can(p, ProxyOperate, r) <==> exists s :: s in p.scopes && OperatesProxies(s)
  {
    forall s | s in p.scopes
      ensures ScopeAllows(s, IdentityOperate, r, p.namespaceName) <==> OperatesIdentities(s, r.siteName)
      ensures ScopeAllows(s, ProxyOperate, r, p.namespaceName) <==> OperatesProxies(s)
    {
    }
  }

  // ------------------------------------------------------------------------ secret paths

  function Joined(segments: seq<string>): string
    requires segments != []
  {
    if |segments| == 1 then segments[0] else segments[0] + "/" + Joined(segments[1..])
  }

  /** The segments of a path, none with a slash in it, make up the path again. */
  lemma {:induction false} SegmentsJoin(path: string)
    ensures Joined(Segments(path)) == path
    ensures forall s :: s in Segments(path) ==> '/' !in s
  {
    if path != "" {
      var rest := Segments(path[1..]);
      SegmentsJoin(path[1..]);
      if path[0] == '/' {
        assert ([""] + rest)[1..] == rest;
        assert path == "" + "/" + path[1..];
      } else {
        var first := [path[0]] + rest[0];
        assert ([first] + rest[1..])[1..] == rest[1..];
        assert path == [path[0]] + path[1..];
        assert rest[0] in rest;
        assert forall s :: s in rest[1..] ==> s in rest;
        if |rest| > 1 {
          assert first + "/" + Joined(rest[1..]) == [path[0]] + (rest[0] + "/" + Joined(rest[1..]));
        }
      }
    }
  }

  lemma SegmentsStep(c: char, path: string)
    requires c != '/'
    ensures Segments([c] + path) == [[c] + Segments(path)[0]] + Segments(path)[1..]
  {
    assert ([c] + path)[1..] == path;
  }

  lemma JoinedStep(first: string, rest: seq<string>)
    requires first != ""
    ensures Joined([first] + rest) == [first[0]] + Joined([first[1..]] + rest)
  {
    assert ([first] + rest)[1..] == rest && ([first[1..]] + rest)[1..] == rest;
    assert first == [first[0]] + first[1..];
    if rest != [] {
      assert first + "/" + Joined(rest) == [first[0]] + (first[1..] + "/" + Joined(rest));
    }
  }

  lemma JoinedEmpty(rest: seq<string>)
    requires rest != []
    ensures Joined([""] + rest) == "/" + Joined(rest)
  {
    assert ([""] + rest)[1..] == rest;
    assert "" + "/" == "/";
  }

  /** Slash-free segments come back from the path they make up. */
  lemma {:induction false} JoinSegments(first: string, rest: seq<string>)
    requires '/' !in first && forall s :: s in rest ==> '/' !in s
    ensures Segments(Joined([first] + rest)) == [first] + rest
    decreases |rest|, |first|
  {
    if first != "" {
      assert first[0] in first && forall c :: c in first[1..] ==> c in first;
      JoinSegments(first[1..], rest);
      JoinedStep(first, rest);
      SegmentsStep(first[0], Joined([first[1..]] + rest));
      assert [first[0]] + first[1..] == first;
      assert ([first[1..]] + rest)[1..] == rest;
    } else if rest != [] {
      assert rest == [rest[0]] + rest[1..] && rest[0] in rest;
      JoinSegments(rest[0], rest[1..]);
      JoinedEmpty(rest);
      assert ("/" + Joined(rest))[1..] == Joined(rest);
    } else {
      assert [first] + rest == [""];
    }
  }

  /** A secret path is in canonical form exactly when none of its segments is empty, "." or "..". */
  lemma CleanIff(segments: seq<string>)
    requires segments != [] && forall s :: s in segments ==> '/' !in s
    ensures CleanSecretPath(Joined(segments)) <==> forall s :: s in segments ==> s != "" && s != "." && s != ".."
  {
    assert segments == [segments[0]] + segments[1..] && segments[0] in segments;
    JoinSegments(segments[0], segments[1..]);
    if Joined(segments) == "" {
      assert Segments("") == [""];
      assert "" in segments;
    }
  }
}
