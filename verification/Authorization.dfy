module Authorization {
  // Object-level authorization: direct grants, grants inherited from ancestor
  // folders, and the batch evaluation that answers many resources with two queries.

  import opened Wrappers

  type Id = nat

  datatype Action = Read | Write | ManagePermissions
  datatype ResourceKind = FolderKind | MetadataKind
  datatype Grantee = UserGrantee(id: Id) | RoleGrantee(id: Id)

  /** A row of `object_permissions`. */
  datatype Grant = Grant(org: Id, kind: ResourceKind, resource: Id, action: Action, grantee: Grantee)

  datatype RolePermission = RolePermission(role: Id, action: Action, kind: ResourceKind)

  datatype Role = Role(id: Id, code: string, org: Id)
  datatype User = User(active: bool, roles: seq<Role>)

  /** Outcome of resolving a user's roles: already decided, or to be decided by grants. */
  datatype Resolution = Decided(allowed: bool) | ByRoles(roles: set<Id>, olpEnabled: bool)

  /** Who asks to do what to resources of which kind; `rbacOnly` leaves object grants out. */
  datatype Question = Question(user: Id, org: Id, action: Action, kind: ResourceKind, rbacOnly: bool)

  /** The permission action table may lack a code; `known` holds those present. */
  datatype Policy = Policy(ceilings: set<RolePermission>, known: set<Action>)

  /** A stronger grant on the resource itself also allows the weaker action. */
  function Direct(action: Action): set<Action> {
    match action
    case Read => {Read, Write, ManagePermissions}
    case Write => {Write, ManagePermissions}
    case ManagePermissions => {ManagePermissions}
  }

  /** Managing an ancestor is deliberately never inherited. */
  function Inherited(action: Action): set<Action> {
    match action
    case Read => {Read, Write}
    case Write => {Write}
    case ManagePermissions => {}
  }

  // ---- roles ----

  function ResolveRoles(user: Option<User>, org: Id, action: Action, p: Policy, trainerAdmin: bool, olpEnabled: bool): Resolution {
    if user.None? || !user.value.active then Decided(false)
    else if trainerAdmin then Decided(true)
    else if exists r :: r in user.value.roles && r.org == org && r.code == "org_admin" then Decided(true)
    else if action !in p.known then Decided(false)
    else ByRoles(set r | r in user.value.roles && r.org == org :: r.id, olpEnabled)
  }

  // ---- the two queries ----

  predicate Reaches(g: Grant, q: Question, roles: set<Id>) {
    g.org == q.org && match g.grantee case UserGrantee(u) => u == q.user case RoleGrantee(r) => r in roles
  }

  /** `findGrantedResourceIds`: the queried resources holding a grant of one of the codes. */
  function GrantedIds(grants: set<Grant>, q: Question, roles: set<Id>, kind: ResourceKind, codes: set<Action>, ids: set<Id>): set<Id> {
    set g | g in grants && Reaches(g, q, roles) && g.kind == kind && g.action in codes && g.resource in ids :: g.resource
  }

  function HasCeiling(p: Policy, roles: set<Id>, codes: set<Action>, kind: ResourceKind): bool {
    exists c :: c in p.ceilings && c.role in roles && c.action in codes && c.kind == kind
  }

  function DirectCodes(p: Policy, action: Action): set<Action> { Direct(action) * p.known }

  function InheritedCodes(p: Policy, action: Action): set<Action> { Inherited(action) * p.known }

  // ---- one resource ----

  predicate HoldsGrant(grants: set<Grant>, q: Question, roles: set<Id>, kind: ResourceKind, codes: set<Action>, id: Id) {
    exists g :: g in grants && Reaches(g, q, roles) && g.kind == kind && g.action in codes && g.resource == id
  }

  /** Metadata inherits from folders, folders from folders: every ancestor is a folder. */
  predicate Inherits(grants: set<Grant>, q: Question, roles: set<Id>, codes: set<Action>, ancestors: seq<Id>) {
    exists a :: a in ancestors && HoldsGrant(grants, q, roles, FolderKind, codes, a)
  }

  /**
   May the user act on `id`? `direct` and `above` are the grant rows the direct and
   the ancestor query see; `ancestors` is `None` when no hierarchy is supplied.
   */
  predicate Allows(direct: set<Grant>, above: set<Grant>, p: Policy, res: Resolution, q: Question, id: Id, ancestors: Option<seq<Id>>) {
    match res
    case Decided(allowed) => allowed
    case ByRoles(roles, olpEnabled) =>
      if q.rbacOnly || !olpEnabled then HasCeiling(p, roles, DirectCodes(p, q.action), q.kind)
      else
        || HoldsGrant(direct, q, roles, q.kind, DirectCodes(p, q.action), id)
        || (ancestors.Some? && Inherits(above, q, roles, InheritedCodes(p, q.action), ancestors.value))
  }

  // ---- many resources ----

  type Hierarchy = map<Id, seq<Id>>

  function AncestorsOf(h: Hierarchy, id: Id): seq<Id> {
    if id in h then h[id] else []
  }

  function Lookup(h: Option<Hierarchy>, id: Id): Option<seq<Id>> {
    if h.None? then None else Some(AncestorsOf(h.value, id))
  }

  function IdSet(ids: seq<Id>): set<Id> { set id | id in ids }

  /**
   `decideAllowedResources`: one query over all resources, one over the union of
   their ancestors. It allows exactly the resources that each are allowed alone.
   */
  method DecideAllowedResources(grants: set<Grant>, p: Policy, res: Resolution, q: Question, ids: seq<Id>, hierarchy: Option<Hierarchy>)
    returns (allowed: set<Id>)
    ensures forall id {:trigger id in allowed} ::
      id in allowed <==> id in ids && Allows(grants, grants, p, res, q, id, Lookup(hierarchy, id))
  {
    if res.Decided? { return if res.allowed then IdSet(ids) else {}; }
    var directCodes := DirectCodes(p, q.action);
    if q.rbacOnly || !res.olpEnabled {
      return if HasCeiling(p, res.roles, directCodes, q.kind) then IdSet(ids) else {};
    }
    allowed := GrantedIds(grants, q, res.roles, q.kind, directCodes, IdSet(ids));
    ghost var direct := allowed;
    var inheritedCodes := InheritedCodes(p, q.action);
    if inheritedCodes != {} && hierarchy.Some? {
      var union := set id, a | id in ids && id !in allowed && a in AncestorsOf(hierarchy.value, id) :: a;
      var grantedAncestors := GrantedIds(grants, q, res.roles, FolderKind, inheritedCodes, union);
      for i := 0 to |ids|
        invariant forall id {:trigger id in allowed} :: id in allowed <==>
          id in direct || (id in ids[..i] && exists a :: a in AncestorsOf(hierarchy.value, id) && a in grantedAncestors)
      {
        if ids[i] !in allowed && exists a :: a in AncestorsOf(hierarchy.value, ids[i]) && a in grantedAncestors {
          allowed := allowed + {ids[i]};
        }
      }
      forall id | id in ids && id !in direct
        ensures (exists a :: a in AncestorsOf(hierarchy.value, id) && a in grantedAncestors)
            <==> Inherits(grants, q, res.roles, inheritedCodes, AncestorsOf(hierarchy.value, id))
      {
        UnionQueryIsPointwise(grants, q, res.roles, inheritedCodes, union, AncestorsOf(hierarchy.value, id));
      }
    }
  }

  /** Asking for more ancestors than one resource has does not change what that resource inherits. */
  lemma UnionQueryIsPointwise(grants: set<Grant>, q: Question, roles: set<Id>, codes: set<Action>, union: set<Id>, ancestors: seq<Id>)
    requires forall a :: a in ancestors ==> a in union
    ensures (exists a :: a in ancestors && a in GrantedIds(grants, q, roles, FolderKind, codes, union)) <==> Inherits(grants, q, roles, codes, ancestors)
  {
    if a :| a in ancestors && HoldsGrant(grants, q, roles, FolderKind, codes, a) {
      assert a in GrantedIds(grants, q, roles, FolderKind, codes, union);
    }
    if a :| a in ancestors && a in GrantedIds(grants, q, roles, FolderKind, codes, union) {
      assert HoldsGrant(grants, q, roles, FolderKind, codes, a);
    }
  }

  /** `canDo`: the same evaluation for one resource, without object grants at the organization's own node. */
  method CanDo(grants: set<Grant>, p: Policy, res: Resolution, q: Question, id: Id, ancestors: Option<seq<Id>>) returns (allowed: bool)
    ensures allowed == Allows(grants, grants, p, res, AskedAlone(q, id), id, ancestors)
  {
    var asked := q.(rbacOnly := q.kind.FolderKind? && id == q.org);
    var h := if ancestors.None? then None else Some(map[id := ancestors.value]);
    var ids := DecideAllowedResources(grants, p, res, asked, [id], h);
    allowed := id in ids;
  }

  /** `canDo`'s question about one resource. */
  function AskedAlone(q: Question, id: Id): Question { q.(rbacOnly := q.kind.FolderKind? && id == q.org) }

  /**
   `canDo` and the batch agree exactly if grants do not decide, the resource is not the
   organization's own node, or the node's grants happen to say what the role ceiling says.
   */
  lemma CanDoAgreesExactly(grants: set<Grant>, p: Policy, res: Resolution, q: Question, id: Id, ancestors: Option<seq<Id>>)
    requires !q.rbacOnly
    ensures Allows(grants, grants, p, res, AskedAlone(q, id), id, ancestors) == Allows(grants, grants, p, res, q, id, ancestors)
      <==>
      || res.Decided? || !res.olpEnabled || !AskedAlone(q, id).rbacOnly
      || (HasCeiling(p, res.roles, DirectCodes(p, q.action), q.kind)
          <==> HoldsGrant(grants, q, res.roles, q.kind, DirectCodes(p, q.action), id)
               || (ancestors.Some? && Inherits(grants, q, res.roles, InheritedCodes(p, q.action), ancestors.value)))
  {
    var alone := AskedAlone(q, id);
    if res.ByRoles? {
      SameReach(grants, q, alone, res.roles, q.kind, DirectCodes(p, q.action), id);
      if ancestors.Some? {
        forall a ensures HoldsGrant(grants, q, res.roles, FolderKind, InheritedCodes(p, q.action), a)
                      == HoldsGrant(grants, alone, res.roles, FolderKind, InheritedCodes(p, q.action), a)
        {
          SameReach(grants, q, alone, res.roles, FolderKind, InheritedCodes(p, q.action), a);
        }
      }
    }
  }

  lemma SameReach(grants: set<Grant>, q: Question, alone: Question, roles: set<Id>, kind: ResourceKind, codes: set<Action>, id: Id)
    requires alone.org == q.org && alone.user == q.user
    ensures HoldsGrant(grants, q, roles, kind, codes, id) == HoldsGrant(grants, alone, roles, kind, codes, id)
  {
    forall g: Grant ensures Reaches(g, q, roles) == Reaches(g, alone, roles) {}
  }

  /** At the organization's node a role ceiling without a grant is enough for `canDo`, and a grant without a ceiling for the batch. */
  lemma OrganizationNodeDiffers()
    ensures
      var q, known := Question(5, 1, Read, FolderKind, false), {Read, Write, ManagePermissions};
      var ceiling, grant := RolePermission(9, Read, FolderKind), Grant(1, FolderKind, 1, Read, RoleGrantee(9));
      && Allows({}, {}, Policy({ceiling}, known), ByRoles({9}, true), AskedAlone(q, 1), 1, None)
      && !Allows({}, {}, Policy({ceiling}, known), ByRoles({9}, true), q, 1, None)
      && !Allows({grant}, {grant}, Policy({}, known), ByRoles({9}, true), AskedAlone(q, 1), 1, None)
      && Allows({grant}, {grant}, Policy({}, known), ByRoles({9}, true), q, 1, None)
  {
    var q, known := Question(5, 1, Read, FolderKind, false), {Read, Write, ManagePermissions};
    var ceiling, grant := RolePermission(9, Read, FolderKind), Grant(1, FolderKind, 1, Read, RoleGrantee(9));
    assert ceiling in {ceiling} && ceiling.role in {9} && ceiling.action in DirectCodes(Policy({ceiling}, known), Read);
    assert grant in {grant} && Reaches(grant, q, {9}) && grant.action in DirectCodes(Policy({}, known), Read);
  }

  /** `filterVisible`: the items allowed, in their own order. */
  method FilterVisible(grants: set<Grant>, p: Policy, res: Resolution, q: Question, items: seq<Id>, hierarchy: Option<Hierarchy>)
    returns (visible: seq<Id>)
    ensures visible == Kept(items, set id | id in items && Allows(grants, grants, p, res, q, id, Lookup(hierarchy, id)))
  {
    var allowed := DecideAllowedResources(grants, p, res, q, items, hierarchy);
    assert allowed == set id | id in items && Allows(grants, grants, p, res, q, id, Lookup(hierarchy, id));
    visible := [];
    for i := 0 to |items|
      invariant visible == Kept(items[..i], allowed)
    {
      assert items[..i + 1][..i] == items[..i];
      if items[i] in allowed { visible := visible + [items[i]]; }
    }
    assert items[..|items|] == items;
  }

  function Kept(items: seq<Id>, allowed: set<Id>): seq<Id> {
    if items == [] then [] else Kept(items[..|items| - 1], allowed) + (if items[|items| - 1] in allowed then [items[|items| - 1]] else [])
  }

  // ---- what the action tables amount to ----

  predicate Weaker(a: Action, b: Action) { a == b || a.Read? || (a.Write? && !b.Read?) }

  /** manage implies write implies read, whatever decides, as long as the weaker action's code exists. */
  lemma ActionsAreMonotone(
      grants: set<Grant>, p: Policy, user: Option<User>, trainerAdmin: bool, olpEnabled: bool, q: Question, weak: Action, id: Id,
      ancestors: Option<seq<Id>>)
    requires Weaker(weak, q.action) && weak in p.known
    requires Allows(grants, grants, p, ResolveRoles(user, q.org, q.action, p, trainerAdmin, olpEnabled), q, id, ancestors)
    ensures Allows(grants, grants, p, ResolveRoles(user, q.org, weak, p, trainerAdmin, olpEnabled), q.(action := weak), id, ancestors)
  {
    var w := q.(action := weak);
    var res := ResolveRoles(user, q.org, q.action, p, trainerAdmin, olpEnabled);
    assert DirectCodes(p, q.action) <= DirectCodes(p, weak) && InheritedCodes(p, q.action) <= InheritedCodes(p, weak);
    if res.ByRoles? {
      var roles := res.roles;
      if HoldsGrant(grants, q, roles, q.kind, DirectCodes(p, q.action), id) {
        var g :| g in grants && Reaches(g, q, roles) && g.kind == q.kind && g.action in DirectCodes(p, q.action) && g.resource == id;
        assert Reaches(g, w, roles) && g.action in DirectCodes(p, weak);
      } else if ancestors.Some? && Inherits(grants, q, roles, InheritedCodes(p, q.action), ancestors.value) {
        var a :| a in ancestors.value && HoldsGrant(grants, q, roles, FolderKind, InheritedCodes(p, q.action), a);
        var g :| g in grants && Reaches(g, q, roles) && g.kind == FolderKind && g.action in InheritedCodes(p, q.action) && g.resource == a;
        assert Reaches(g, w, roles);
        assert HoldsGrant(grants, w, roles, FolderKind, InheritedCodes(p, weak), a);
      }
    }
  }

  /**
   Read and write grants close downward, manage grants do not: with object grants in
   force, a child is allowed iff it holds a grant itself, or its parent folder is
   allowed the action by more than manage grants on the parent alone.
   */
  lemma ChildInherits(grants: set<Grant>, p: Policy, roles: set<Id>, q: Question, child: Id, parent: Id, above: seq<Id>)
    requires !q.rbacOnly
    ensures
      var res := ByRoles(roles, true);
      var onParent := q.(kind := FolderKind);
      var inherited := InheritedCodes(p, q.action);
      Allows(grants, grants, p, res, q, child, Some(above + [parent]))
        == (HoldsGrant(grants, q, roles, q.kind, DirectCodes(p, q.action), child)
            || HoldsGrant(grants, onParent, roles, FolderKind, inherited, parent)
            || Inherits(grants, onParent, roles, inherited, above))
  {
    var onParent, inherited := q.(kind := FolderKind), InheritedCodes(p, q.action);
    forall a ensures HoldsGrant(grants, q, roles, FolderKind, inherited, a) <==> HoldsGrant(grants, onParent, roles, FolderKind, inherited, a) {
      forall g: Grant ensures Reaches(g, q, roles) == Reaches(g, onParent, roles) {}
    }
    if Inherits(grants, q, roles, inherited, above + [parent]) {
      var a :| a in above + [parent] && HoldsGrant(grants, q, roles, FolderKind, inherited, a);
      assert a in above || a == parent;
    }
    if HoldsGrant(grants, onParent, roles, FolderKind, inherited, parent) { assert parent in above + [parent]; }
    if a :| a in above && HoldsGrant(grants, onParent, roles, FolderKind, inherited, a) { assert a in above + [parent]; }
  }

  /** Whoever is allowed on a folder other than by managing it directly is allowed on everything below. */
  lemma AllowanceClosesDown(grants: set<Grant>, p: Policy, roles: set<Id>, q: Question, child: Id, parent: Id, above: seq<Id>)
    requires !q.rbacOnly
    requires Allows(grants, grants, p, ByRoles(roles, true), q.(kind := FolderKind), parent, Some(above))
    requires !HoldsGrant(grants, q.(kind := FolderKind), roles, FolderKind, {ManagePermissions}, parent)
    ensures Allows(grants, grants, p, ByRoles(roles, true), q, child, Some(above + [parent]))
  {
    ChildInherits(grants, p, roles, q, child, parent, above);
    var onParent := q.(kind := FolderKind);
    if HoldsGrant(grants, onParent, roles, FolderKind, DirectCodes(p, q.action), parent) {
      var g :| g in grants && Reaches(g, onParent, roles) && g.kind == FolderKind && g.action in DirectCodes(p, q.action) && g.resource == parent;
      assert g.action != ManagePermissions;
      assert g.action in InheritedCodes(p, q.action);
    }
  }

  /** A manage grant on any other resource never decides anything here. */
  predicate ManagesElsewhere(g: Grant, kind: ResourceKind, id: Id) {
    g.action.ManagePermissions? && !(g.kind == kind && g.resource == id)
  }

  lemma ManageIsNeverInherited(grants: set<Grant>, p: Policy, res: Resolution, q: Question, id: Id, ancestors: Option<seq<Id>>)
    ensures
      var kept := set g | g in grants && !ManagesElsewhere(g, q.kind, id);
      Allows(kept, kept, p, res, q, id, ancestors) == Allows(grants, grants, p, res, q, id, ancestors)
  {
    var kept := set g | g in grants && !ManagesElsewhere(g, q.kind, id);
    if res.ByRoles? {
      var roles, direct, inherited := res.roles, DirectCodes(p, q.action), InheritedCodes(p, q.action);
      if g :| g in grants && Reaches(g, q, roles) && g.kind == q.kind && g.action in direct && g.resource == id { assert g in kept; }
      assert HoldsGrant(grants, q, roles, q.kind, direct, id) == HoldsGrant(kept, q, roles, q.kind, direct, id);
      forall a ensures HoldsGrant(grants, q, roles, FolderKind, inherited, a) == HoldsGrant(kept, q, roles, FolderKind, inherited, a) {
        if g :| g in grants && Reaches(g, q, roles) && g.kind == FolderKind && g.action in inherited && g.resource == a { assert g in kept; }
      }
    }
  }

  // ---- which rows matter ----

  predicate Concerns(grantee: Grantee, user: Id, roles: set<Id>) {
    match grantee case UserGrantee(u) => u == user case RoleGrantee(r) => r in roles
  }

  /** The tables agree on every row granted in the organization to the user or to one of the roles. */
  ghost predicate AgreeOn(a: set<Grant>, b: set<Grant>, q: Question, roles: set<Id>) {
    forall g: Grant {:trigger g in a} {:trigger g in b} :: g.org == q.org && Concerns(g.grantee, q.user, roles) ==> (g in a <==> g in b)
  }

  /** Only rows of the question's organization granted to the user or a resolved role can change an answer. */
  lemma OtherRowsAreIrrelevant(a: set<Grant>, b: set<Grant>, a2: set<Grant>, b2: set<Grant>, p: Policy, roles: set<Id>, olp: bool, q: Question,
                               id: Id, ancestors: Option<seq<Id>>)
    requires AgreeOn(a, b, q, roles) && AgreeOn(a2, b2, q, roles)
    ensures Allows(a, a2, p, ByRoles(roles, olp), q, id, ancestors) == Allows(b, b2, p, ByRoles(roles, olp), q, id, ancestors)
  {
    forall kind, codes, x ensures HoldsGrant(a, q, roles, kind, codes, x) == HoldsGrant(b, q, roles, kind, codes, x)
    {
      SameHoldings(a, b, q, roles, kind, codes, x);
      SameHoldings(b, a, q, roles, kind, codes, x);
    }
    forall kind, codes, x ensures HoldsGrant(a2, q, roles, kind, codes, x) == HoldsGrant(b2, q, roles, kind, codes, x)
    {
      SameHoldings(a2, b2, q, roles, kind, codes, x);
      SameHoldings(b2, a2, q, roles, kind, codes, x);
    }
  }

  lemma SameHoldings(a: set<Grant>, b: set<Grant>, q: Question, roles: set<Id>, kind: ResourceKind, codes: set<Action>, id: Id)
    requires AgreeOn(a, b, q, roles)
    ensures HoldsGrant(a, q, roles, kind, codes, id) ==> HoldsGrant(b, q, roles, kind, codes, id)
  {
    if g :| g in a && Reaches(g, q, roles) && g.kind == kind && g.action in codes && g.resource == id { assert g in b; }
  }
}
