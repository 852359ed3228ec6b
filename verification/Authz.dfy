/**
 * Authorization (internal/authz): the pointwise check Can and the list filter
 * SiteFilter, for users, API tokens and the system principal.
 */
module Authorization {
  import Globs
  import opened Sorting

  /** Tenant, namespace and site IDs, numbered in their sort order; 0 is the empty ID. */
  type Id = nat

  datatype Permission =
    | TenantManage | KEKManage
    | NamespaceRead | NamespaceWrite
    | SiteRead | SiteWrite
    | IdentityRead | IdentityWrite | IdentityOperate | IdentityReveal
    | ProxyRead | ProxyWrite | ProxyOperate
    | PolicyRead | PolicyWrite | PolicyPublish
    | BreakerRead | BreakerOperate
    | ConfigRead | ConfigWrite | ConfigPublish
    | SecretList | SecretWrite | SecretReveal
    | TokenRead | TokenWrite
    | UserRead | UserWrite
    | AuditRead
    | NotifyRead | NotifyWrite
    | DashboardRead
    | LeaseAcquire | ReportWrite | SecretRead
    | Unknown(name: string)

  predicate ValidPermission(p: Permission) {
    !p.Unknown?
  }

  predicate PlatformOnly(p: Permission) {
    p.TenantManage? || p.KEKManage?
  }

  datatype Role = Owner | Admin | Operator | Viewer | UnknownRole(name: string)

  predicate ViewerHas(p: Permission) {
    || p.NamespaceRead? || p.SiteRead? || p.IdentityRead? || p.ProxyRead? || p.PolicyRead? || p.BreakerRead?
    || p.ConfigRead? || p.SecretList? || p.DashboardRead? || p.AuditRead? || p.NotifyRead?
  }

  predicate OperatorHas(p: Permission) {
    || ViewerHas(p)
    || p.IdentityWrite? || p.IdentityOperate? || p.ProxyWrite? || p.ProxyOperate? || p.PolicyWrite? || p.ConfigWrite?
    || p.BreakerOperate?
  }

  predicate AdminHas(p: Permission) {
    || OperatorHas(p)
    || p.SiteWrite? || p.PolicyPublish? || p.ConfigPublish? || p.SecretWrite? || p.SecretReveal? || p.IdentityReveal?
    || p.TokenRead? || p.TokenWrite? || p.NotifyWrite?
  }

  predicate OwnerHas(p: Permission) {
    AdminHas(p) || p.NamespaceWrite? || p.UserRead? || p.UserWrite?
  }

  predicate RoleHas(role: Role, p: Permission) {
    match role
    case Owner => OwnerHas(p)
    case Admin => AdminHas(p)
    case Operator => OperatorHas(p)
    case Viewer => ViewerHas(p)
    case UnknownRole(_) => false
  }

  predicate ValidExtra(p: Permission) {
    p.ConfigPublish? || p.SecretReveal? || p.IdentityReveal? || p.PolicyPublish?
  }

  datatype Binding = Binding(tenant: Id, role: Role, namespace: Id, sites: seq<Id>, extra: seq<Permission>)

  predicate Grants(b: Binding, p: Permission) {
    !b.role.UnknownRole? && (RoleHas(b.role, p) || (ValidExtra(p) && p in b.extra))
  }

  datatype Resource = Resource(
    tenant: Id, namespace: Id, namespaceName: string, site: Id, siteName: string,
    configGroup: string, secretPath: string)

  predicate BindingAllows(b: Binding, p: Permission, r: Resource) {
    && b.tenant != 0 && b.tenant == r.tenant
    && (b.namespace == 0 || b.namespace == r.namespace)
    && Grants(b, p)
    && if b.sites == [] then true
       else if r.site == 0 then (p.ProxyRead? || p.NamespaceRead?) && b.namespace != 0
       else r.site in b.sites
  }

  // --------------------------------------------------------------------- token scopes

  datatype ScopeName =
    | LeaseAcquireScope | ReportWriteScope | ConfigReadScope | ConfigPublishScope | SecretReadScope | IdentityWriteScope
    | ProxyWriteScope | AdminScope
    | OtherScope(text: string)

  datatype ArgKind = NoArg | SiteArg | GroupGlob | SecretGlob

  function ArgOf(name: ScopeName): ArgKind {
    match name
    case LeaseAcquireScope => SiteArg
    case ReportWriteScope => SiteArg
    case ConfigReadScope => GroupGlob
    case ConfigPublishScope => GroupGlob
    case SecretReadScope => SecretGlob
    case IdentityWriteScope => SiteArg
    case _ => NoArg
  }

  predicate NameGrants(name: ScopeName, p: Permission) {
    match name
    case LeaseAcquireScope => p.LeaseAcquire?
    case ReportWriteScope => p.ReportWrite?
    case ConfigReadScope => p.ConfigRead?
    case ConfigPublishScope => p.ConfigRead? || p.ConfigWrite? || p.ConfigPublish?
    case SecretReadScope => p.SecretRead?
    case IdentityWriteScope => p.IdentityRead? || p.IdentityWrite? || p.IdentityOperate?
    case ProxyWriteScope => p.ProxyRead? || p.ProxyWrite? || p.ProxyOperate?
    case AdminScope => RoleHas(Admin, p)
    case OtherScope(_) => false
  }

  datatype Scope = Scope(name: ScopeName, arg: string)

  /** grantsPermission: structurally invalid scopes grant nothing. */
  predicate ScopeGrants(s: Scope, p: Permission) {
    && (ArgOf(s.name).NoArg? ==> s.arg == "") && (ArgOf(s.name).SecretGlob? ==> s.arg != "")
    && NameGrants(s.name, p)
  }

  /** The scope's argument names a site. */
  predicate NamesSite(s: Scope) {
    ArgOf(s.name).SiteArg? && s.arg != ""
  }

  function Segments(path: string): (r: seq<string>)
    ensures |r| > 0
  {
    if path == "" then [""]
    else var rest := Segments(path[1..]);
      if path[0] == '/' then [""] + rest else [[path[0]] + rest[0]] + rest[1..]
  }

  predicate CleanSecretPath(path: string) {
    path != "" && forall seg :: seg in Segments(path) ==> seg != "" && seg != "." && seg != ".."
  }

  ghost predicate ScopeAllows(s: Scope, p: Permission, r: Resource, namespaceName: string) {
    && ScopeGrants(s, p)
    && match ArgOf(s.name)
       case SiteArg => s.arg == "" || (r.siteName != "" && r.siteName == s.arg)
       case GroupGlob => s.arg == "" || Globs.Matches(s.arg, r.configGroup)
       case SecretGlob =>
         var name := if r.namespaceName == "" then namespaceName else r.namespaceName;
         && name != "" && (namespaceName == "" || name == namespaceName) && CleanSecretPath(r.secretPath)
         && Globs.Matches(s.arg, name + "/" + r.secretPath)
       case NoArg => true
  }

  // ---------------------------------------------------------------------- principals

  datatype Principal =
    | Nil
    | System
    | User(platformAdmin: bool, bindings: seq<Binding>)
    | Token(tenant: Id, namespace: Id, namespaceName: string, scopes: seq<Scope>)
    | OtherKind

  predicate BoundTo(p: Principal, tenant: Id, namespace: Id)
    requires p.Token?
  {
    p.tenant != 0 && p.namespace != 0 && p.tenant == tenant && p.namespace == namespace
  }

  predicate WellFormed(r: Resource) {
    r.tenant != 0 && (r.site == 0 || r.namespace != 0)
  }

  ghost predicate Can(p: Principal, perm: Permission, r: Resource) {
    && ValidPermission(perm)
    && match p
       case System => true
       case User(platformAdmin, bindings) =>
         || platformAdmin
         || (!PlatformOnly(perm) && WellFormed(r) && exists b :: b in bindings && BindingAllows(b, perm, r))
       case Token(_, _, namespaceName, scopes) =>
         && !PlatformOnly(perm) && WellFormed(r) && r.namespace != 0 && BoundTo(p, r.tenant, r.namespace)
         && exists s :: s in scopes && ScopeAllows(s, perm, r, namespaceName)
       case _ => false
  }

  // ------------------------------------------------------------------ the site filter

  /** The binding speaks about this permission in this namespace. */
  predicate Applies(b: Binding, tenant: Id, namespace: Id, perm: Permission) {
    b.tenant == tenant && (b.namespace == 0 || b.namespace == namespace) && Grants(b, perm)
  }

  ghost predicate AnyUnrestricted(bindings: seq<Binding>, tenant: Id, namespace: Id, perm: Permission) {
    exists b :: b in bindings && Applies(b, tenant, namespace, perm) && b.sites == []
  }

  ghost predicate Listed(bindings: seq<Binding>, tenant: Id, namespace: Id, perm: Permission, site: Id) {
    && namespace != 0 && site != 0
    && exists b :: b in bindings && Applies(b, tenant, namespace, perm) && site in b.sites
  }

  /** What the two loops of userSiteFilter have collected from these bindings. */
  ghost predicate Collected(bindings: seq<Binding>, tenant: Id, namespace: Id, perm: Permission, ids: seq<Id>) {
    && !AnyUnrestricted(bindings, tenant, namespace, perm)
    && forall id :: id in ids <==> Listed(bindings, tenant, namespace, perm, id)
  }

  /** The inner loop: the non-empty site IDs of a binding are appended. */
  method AppendSites(ids: seq<Id>, sites: seq<Id>) returns (r: seq<Id>)
    ensures forall id :: id in r <==> id in ids || (id != 0 && id in sites)
  {
    r := ids;
    for i := 0 to |sites|
      invariant forall id :: id in r <==> id in ids || (id != 0 && id in sites[..i])
    {
      if sites[i] != 0 {
        r := r + [sites[i]];
      }
      assert sites[..i + 1] == sites[..i] + [sites[i]];
    }
    assert sites[..|sites|] == sites;
  }

  lemma ListedOne(bindings: seq<Binding>, b: Binding, tenant: Id, namespace: Id, perm: Permission, id: Id)
    ensures Listed(bindings + [b], tenant, namespace, perm, id) <==>
            || Listed(bindings, tenant, namespace, perm, id)
            || (Applies(b, tenant, namespace, perm) && namespace != 0 && id != 0 && id in b.sites)
  {
    var all := bindings + [b];
    assert all[|bindings|] == b && b in all;
    if Listed(bindings, tenant, namespace, perm, id) {
      var c :| c in bindings && Applies(c, tenant, namespace, perm) && id in c.sites;
      assert c in all;
    }
  }

  lemma CollectOne(bindings: seq<Binding>, b: Binding, tenant: Id, namespace: Id, perm: Permission, ids: seq<Id>,
                   r: seq<Id>)
    requires Collected(bindings, tenant, namespace, perm, ids)
    requires Applies(b, tenant, namespace, perm) ==> b.sites != []
    requires forall id :: id in r <==>
               id in ids || (Applies(b, tenant, namespace, perm) && namespace != 0 && id != 0 && id in b.sites)
    ensures Collected(bindings + [b], tenant, namespace, perm, r)
  {
    forall id
      ensures id in r <==> Listed(bindings + [b], tenant, namespace, perm, id)
    {
      ListedOne(bindings, b, tenant, namespace, perm, id);
    }
  }

  method UserSiteFilter(bindings: seq<Binding>, tenant: Id, namespace: Id, perm: Permission)
    returns (all: bool, siteIds: seq<Id>)
    ensures all == AnyUnrestricted(bindings, tenant, namespace, perm)
    ensures all ==> siteIds == []
    ensures !all ==> Increasing(siteIds)
    ensures !all ==> forall id :: id in siteIds <==> Listed(bindings, tenant, namespace, perm, id)
  {
    var ids: seq<Id> := [];
    for i := 0 to |bindings|
      invariant Collected(bindings[..i], tenant, namespace, perm, ids)
    {
      var b := bindings[i];
      assert bindings[..i + 1] == bindings[..i] + [b];
      ghost var before := ids;
      if b.tenant != tenant || (b.namespace != 0 && b.namespace != namespace) || !Grants(b, perm) {
        CollectOne(bindings[..i], b, tenant, namespace, perm, before, ids);
        continue;
      }
      if |b.sites| == 0 {
        return true, [];
      }
      if namespace != 0 {
        ids := AppendSites(ids, b.sites);
      }
      CollectOne(bindings[..i], b, tenant, namespace, perm, before, ids);
    }
    assert bindings[..|bindings|] == bindings;
    all := false;
    var sorted := Sort(ids);
    siteIds := Compact(sorted);
  }

  /** Some scope grants the permission without naming a site. */
  ghost predicate AnySiteFree(scopes: seq<Scope>, perm: Permission) {
    exists s :: s in scopes && ScopeGrants(s, perm) && !NamesSite(s)
  }

  /** What SiteFilter answers. */
  ghost predicate Unrestricted(p: Principal, tenant: Id, namespace: Id, perm: Permission) {
    && ValidPermission(perm)
    && match p
       case System => true
       case User(platformAdmin, bindings) =>
         platformAdmin || (!PlatformOnly(perm) && tenant != 0 && AnyUnrestricted(bindings, tenant, namespace, perm))
       case Token(_, _, _, scopes) =>
         !PlatformOnly(perm) && namespace != 0 && BoundTo(p, tenant, namespace) && AnySiteFree(scopes, perm)
       case _ => false
  }

  ghost predicate InFilter(p: Principal, tenant: Id, namespace: Id, perm: Permission, site: Id) {
    && ValidPermission(perm) && p.User? && !p.platformAdmin && !PlatformOnly(perm) && tenant != 0
    && Listed(p.bindings, tenant, namespace, perm, site)
  }

  method TokenScopesSiteFree(scopes: seq<Scope>, perm: Permission) returns (all: bool)
    ensures all == AnySiteFree(scopes, perm)
  {
    for i := 0 to |scopes|
      invariant forall k :: 0 <= k < i ==>
        !(ScopeGrants(scopes[k], perm) && !NamesSite(scopes[k]))
    {
      var s := scopes[i];
      if !ScopeGrants(s, perm) || NamesSite(s) {
        continue;
      }
      return true;
    }
    all := false;
  }

  method SiteFilter(p: Principal, tenant: Id, namespace: Id, perm: Permission) returns (all: bool, siteIds: seq<Id>)
    ensures all == Unrestricted(p, tenant, namespace, perm)
    ensures all ==> siteIds == []
    ensures !all ==> Increasing(siteIds) && forall id :: id in siteIds <==> InFilter(p, tenant, namespace, perm, id)
  {
    all, siteIds := false, [];
    if !ValidPermission(perm) {
      return;
    }
    match p
    case System => all := true;
    case User(platformAdmin, bindings) =>
      if platformAdmin {
        return true, [];
      }
      if PlatformOnly(perm) || tenant == 0 {
        return;
      }
      all, siteIds := UserSiteFilter(bindings, tenant, namespace, perm);
    case Token(_, _, _, scopes) =>
      if PlatformOnly(perm) || namespace == 0 || !BoundTo(p, tenant, namespace) {
        return;
      }
      all := TokenScopesSiteFree(scopes, perm);
    case _ =>
  }

  // --------------------------------------------------------- the filter and the check agree

  /** The filter lets the site through. */
  ghost predicate Admits(p: Principal, tenant: Id, namespace: Id, perm: Permission, site: Id) {
    Unrestricted(p, tenant, namespace, perm) || InFilter(p, tenant, namespace, perm, site)
  }

  lemma BindingAgrees(b: Binding, perm: Permission, r: Resource)
    requires r.site != 0 && r.tenant != 0
    ensures BindingAllows(b, perm, r) <==>
            Applies(b, r.tenant, r.namespace, perm) && (b.sites == [] || r.site in b.sites)
  {
  }

  lemma BindingsAgree(bindings: seq<Binding>, perm: Permission, r: Resource)
    requires r.site != 0 && r.namespace != 0 && r.tenant != 0
    ensures (exists b :: b in bindings && BindingAllows(b, perm, r)) <==>
            || AnyUnrestricted(bindings, r.tenant, r.namespace, perm)
            || Listed(bindings, r.tenant, r.namespace, perm, r.site)
  {
    forall b | b in bindings
      ensures BindingAllows(b, perm, r) <==>
              Applies(b, r.tenant, r.namespace, perm) && (b.sites == [] || r.site in b.sites)
    {
      BindingAgrees(b, perm, r);
    }
  }

  /** For users, in every namespace and on every site, the filter is the check. */
  lemma UserFilterIsCan(p: Principal, perm: Permission, r: Resource)
    requires p.User? && r.site != 0 && r.namespace != 0
    ensures Admits(p, r.tenant, r.namespace, perm, r.site) <==> Can(p, perm, r)
  {
    if r.tenant != 0 {
      BindingsAgree(p.bindings, perm, r);
    }
  }

  /**
   * Without a namespace the two part ways: the check denies every site (sites belong to a
   * namespace), the filter still answers "all" for an unrestricted tenant-wide binding.
   */
  lemma EmptyNamespaceIff(p: Principal, perm: Permission, r: Resource)
    requires p.User? && r.site != 0 && r.namespace == 0
    ensures (Admits(p, r.tenant, r.namespace, perm, r.site) <==> Can(p, perm, r)) <==>
            || p.platformAdmin || !ValidPermission(perm) || PlatformOnly(perm) || r.tenant == 0
            || !AnyUnrestricted(p.bindings, r.tenant, 0, perm)
  {
  }

  lemma EmptyNamespaceDiffers() returns (p: Principal, r: Resource)
    ensures p.User? && r.site != 0 && r.namespace == 0
    ensures Unrestricted(p, r.tenant, r.namespace, SiteRead) && !Can(p, SiteRead, r)
  {
    var b := Binding(1, Viewer, 0, [], []);
    p, r := User(false, [b]), Resource(1, 0, "", 5, "", "", "");
    assert b in p.bindings && Applies(b, 1, 0, SiteRead);
  }

  /** The permissions that only scopes with a site name or no argument grant. */
  predicate SiteScoped(perm: Permission) {
    !perm.ConfigRead? && !perm.ConfigWrite? && !perm.ConfigPublish? && !perm.SecretRead?
  }

  /**
   * For tokens, outside the config and secret scopes: "all" means every site of the
   * namespace, and otherwise only a scope that names the site lets it through.
   */
  lemma TokenFilterIsCan(p: Principal, perm: Permission, r: Resource)
    requires p.Token? && SiteScoped(perm) && r.site != 0 && r.namespace != 0 && r.tenant != 0
    ensures Can(p, perm, r) <==>
            || Unrestricted(p, r.tenant, r.namespace, perm)
            || (&& ValidPermission(perm) && !PlatformOnly(perm) && BoundTo(p, r.tenant, r.namespace) && r.siteName != ""
                && exists s :: s in p.scopes && ScopeGrants(s, perm) && NamesSite(s) && s.arg == r.siteName)
  {
    forall s | s in p.scopes && ScopeGrants(s, perm)
      ensures ArgOf(s.name).SiteArg? || ArgOf(s.name).NoArg?
      ensures !NamesSite(s) ==> ScopeAllows(s, perm, r, p.namespaceName)
    {
    }
  }

  // ------------------------------------------------------------------- scope syntax

  /** The first position of the character from k on, or -1. */
  function IndexFrom(s: string, c: char, k: nat): int
    decreases |s| - k
  {
    if k >= |s| then -1 else if s[k] == c then k else IndexFrom(s, c, k + 1)
  }

  lemma {:induction false} IndexIsFirst(s: string, c: char, k: nat)
    requires k <= |s|
    ensures var r := IndexFrom(s, c, k);
            if r < 0 then r == -1 && forall i :: k <= i < |s| ==> s[i] != c
            else k <= r < |s| && s[r] == c && forall i :: k <= i < r ==> s[i] != c
    decreases |s| - k
  {
    if k < |s| && s[k] != c {
      IndexIsFirst(s, c, k + 1);
    }
  }

  datatype Split = Split(name: string, arg: string, hasArg: bool)

  /** The scope cut at a position, or not at all. */
  function CutAt(s: string, k: int): Split {
    if 0 <= k < |s| then Split(s[..k], s[k + 1..], true) else Split(s, "", false)
  }

  /** Cuts at the first colon after "admin", otherwise at the second colon. */
  function SplitScope(s: string): Split {
    var first := IndexFrom(s, ':', 0);
    if first < 0 || |s| <= first || s[..first] == "admin" then CutAt(s, first)
    else CutAt(s, IndexFrom(s, ':', first + 1))
  }

  function Unsplit(x: Split): string {
    if x.hasArg then x.name + ":" + x.arg else x.name
  }

  lemma CutLosesNothing(s: string, k: int)
    requires 0 <= k < |s| ==> s[k] == ':'
    ensures Unsplit(CutAt(s, k)) == s
  {
    if 0 <= k < |s| {
      assert s[..k] + ":" + s[k + 1..] == s;
    }
  }

  lemma SplitIsCut(s: string) returns (k: int)
    ensures SplitScope(s) == CutAt(s, k) && (0 <= k < |s| ==> s[k] == ':')
  {
    k := IndexFrom(s, ':', 0);
    IndexIsFirst(s, ':', 0);
    if k >= 0 && s[..k] != "admin" {
      IndexIsFirst(s, ':', k + 1);
      k := IndexFrom(s, ':', k + 1);
    }
  }

  /** Nothing is lost: name and argument make up the scope again. */
  lemma SplitLosesNothing(s: string)
    ensures Unsplit(SplitScope(s)) == s
  {
    var k := SplitIsCut(s);
    CutLosesNothing(s, k);
  }

  /** The name of a scope: "admin", or two words with one colon between them, at position i. */
  predicate IsName(name: string, i: nat) {
    || name == "admin"
    || (&& i < |name| && name[i] == ':' && name[..i] != "admin"
        && forall k :: 0 <= k < |name| && k != i ==> name[k] != ':')
  }

  lemma Joined(a: string, b: string)
    ensures var s := a + ":" + b;
            && |a| < |s| && s[|a|] == ':' && s[..|a|] == a && s[|a| + 1..] == b
            && forall k :: 0 <= k < |a| ==> s[k] == a[k]
  {
  }

  /** Every name comes back from the scope it was put into, with any argument, even one holding colons. */
  lemma SplitFindsName(name: string, i: nat, arg: string)
    requires IsName(name, i)
    ensures SplitScope(name + ":" + arg) == Split(name, arg, true)
  {
    var s := name + ":" + arg;
    Joined(name, arg);
    IndexIsFirst(s, ':', 0);
    if name == "admin" {
      assert IndexFrom(s, ':', 0) == |name|;
    } else {
      assert IndexFrom(s, ':', 0) == i && s[..i] == name[..i];
      IndexIsFirst(s, ':', i + 1);
      assert IndexFrom(s, ':', i + 1) == |name|;
    }
  }
}
