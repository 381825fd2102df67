/**
 * The view guards: `role_required` with its four role lists, and the
 * class-based `RoleRequiredMixin` with its four subclasses. A user is the
 * three attributes the guards read; roles are the stored strings.
 */
module Decorators {

  /** The attributes of `request.user` the access rules read. */
  datatype User = User(isAuthenticated: bool, role: string, isSuperuser: bool)

  const OperatorRole: string := "operator"
  const MasterRole: string := "master"
  const ChiefRole: string := "chief"
  const AdminRole: string := "admin"

  /** `Employee.is_admin`: the stored role is the administrator role. */
  predicate IsAdmin(u: User) {
    u.role == AdminRole
  }

  /** What a guard does with the request. */
  datatype Decision =
    | Allow             // the view runs
    | RedirectLogin     // redirect to the login page
    | RedirectHome      // error message, then redirect to the home page

  /** The wrapper `role_required(*roles)` puts around a view. */
  function RoleRequired(roles: seq<string>, u: User): (d: Decision)
    ensures d == RedirectLogin <==> !u.isAuthenticated
    ensures d == Allow <==> u.isAuthenticated && (IsAdmin(u) || u.isSuperuser || u.role in roles)
  {
    if !u.isAuthenticated then RedirectLogin
    else if IsAdmin(u) || u.isSuperuser then Allow
    else if u.role in roles then Allow
    else RedirectHome
  }

  /** The role lists of the four ready-made guards, from widest to narrowest. */
  const OperatorRoles: seq<string> := [OperatorRole, MasterRole, ChiefRole, AdminRole]
  const MasterRoles: seq<string> := [MasterRole, ChiefRole, AdminRole]
  const ChiefRoles: seq<string> := [ChiefRole, AdminRole]
  const AdminRoles: seq<string> := [AdminRole]

  function OperatorRequired(u: User): Decision { RoleRequired(OperatorRoles, u) }
  function MasterRequired(u: User): Decision { RoleRequired(MasterRoles, u) }
  function ChiefRequired(u: User): Decision { RoleRequired(ChiefRoles, u) }
  function AdminRequired(u: User): Decision { RoleRequired(AdminRoles, u) }

  /**
   * The ready-made guards are nested: whoever passes a narrower one passes
   * every wider one, and each admits exactly the roles from its own level up.
   */
  lemma ReadyMadeGuardsNested(u: User)
    ensures AdminRequired(u) == Allow ==> ChiefRequired(u) == Allow
    ensures ChiefRequired(u) == Allow ==> MasterRequired(u) == Allow
    ensures MasterRequired(u) == Allow ==> OperatorRequired(u) == Allow
    ensures u.isAuthenticated && !u.isSuperuser ==>
      && (AdminRequired(u) == Allow <==> u.role == AdminRole)
      && (ChiefRequired(u) == Allow <==> u.role in {ChiefRole, AdminRole})
      && (MasterRequired(u) == Allow <==> u.role in {MasterRole, ChiefRole, AdminRole})
      && (OperatorRequired(u) == Allow <==> u.role in {OperatorRole, MasterRole, ChiefRole, AdminRole})
  {
  }

  /**
   * An administrator or superuser passes whatever roles are listed, even
   * none; an anonymous user never does.
   */
  lemma AdministratorsAlwaysPass(roles: seq<string>, u: User)
    ensures u.isAuthenticated && (IsAdmin(u) || u.isSuperuser) ==> RoleRequired(roles, u) == Allow
    ensures !u.isAuthenticated ==> RoleRequired(roles, u) != Allow
  {
  }

  /**
   * `RoleRequiredMixin.dispatch`: like the decorator, except that an empty
   * `allowed_roles` admits every authenticated user.
   */
  function MixinDispatch(allowedRoles: seq<string>, u: User): (d: Decision)
    ensures d == RedirectLogin <==> !u.isAuthenticated
    ensures d == Allow <==>
      u.isAuthenticated && (IsAdmin(u) || u.isSuperuser || allowedRoles == [] || u.role in allowedRoles)
  {
    if !u.isAuthenticated then RedirectLogin
    else if IsAdmin(u) || u.isSuperuser then Allow
    else if allowedRoles != [] && u.role !in allowedRoles then RedirectHome
    else Allow
  }

  function OperatorMixin(u: User): Decision { MixinDispatch(OperatorRoles, u) }
  function MasterMixin(u: User): Decision { MixinDispatch(MasterRoles, u) }
  function ChiefMixin(u: User): Decision { MixinDispatch(ChiefRoles, u) }
  function AdminMixin(u: User): Decision { MixinDispatch(AdminRoles, u) }

  /**
   * With a non-empty role list the mixin decides exactly as the decorator;
   * with the base class's empty list it admits any authenticated user,
   * where the decorator given no roles would admit only administrators.
   */
  lemma MixinAgreesWithDecorator(roles: seq<string>, u: User)
    ensures roles != [] ==> MixinDispatch(roles, u) == RoleRequired(roles, u)
    ensures u.isAuthenticated ==> MixinDispatch([], u) == Allow
    ensures u.isAuthenticated && !IsAdmin(u) && !u.isSuperuser ==> RoleRequired([], u) == RedirectHome
  {
  }

  /** The four mixin subclasses decide exactly as the four decorators. */
  lemma ReadyMadeMixinsMatchDecorators(u: User)
    ensures OperatorMixin(u) == OperatorRequired(u)
    ensures MasterMixin(u) == MasterRequired(u)
    ensures ChiefMixin(u) == ChiefRequired(u)
    ensures AdminMixin(u) == AdminRequired(u)
  {
    MixinAgreesWithDecorator(OperatorRoles, u);
    MixinAgreesWithDecorator(MasterRoles, u);
    MixinAgreesWithDecorator(ChiefRoles, u);
    MixinAgreesWithDecorator(AdminRoles, u);
  }
}
