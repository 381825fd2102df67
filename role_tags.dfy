/**
 * The template helpers that show or hide parts of a page by role:
 * `has_role`, `has_any_role` (a comma-separated list) and
 * `user_can_access`. The user may be missing from the template context.
 */
module RoleTags {
  import opened Common
  import opened PyStr
  import opened Decorators

  /** A present, logged-in user. */
  predicate LoggedIn(user: Option<User>) {
    user.Some? && user.value.isAuthenticated
  }

  /** `has_role`: exact equality of the stored role, with no administrator override. */
  function HasRole(user: Option<User>, role: string): (r: bool)
    ensures r <==> LoggedIn(user) && user.value.role == role
  {
    if user.None? || !user.value.isAuthenticated then false
    else user.value.role == role
  }

  /**
   * The list comprehension of `has_any_role`: the pieces between commas,
   * each stripped. Every entry is a plain name, and a string without a
   * comma is read as the one entry it makes once stripped.
   */
  function RoleList(roles: string): (list: seq<string>)
    ensures |list| == |Split(roles, ',')| >= 1
    ensures forall k :: 0 <= k < |list| ==> PlainName(list[k])
    ensures ',' !in roles ==> list == [Strip(roles)]
  {
    var parts := Split(roles, ',');
    StrippedPiecesArePlain(parts);
    var list := seq(|parts|, k requires 0 <= k < |parts| => Strip(parts[k]));
    if ',' !in roles then
      SplitWithoutSeparator(roles, ',');
      assert list[0] == Strip(roles);
      list
    else
      list
  }

  /** Pieces without a comma are plain names once stripped. */
  lemma StrippedPiecesArePlain(parts: seq<string>)
    requires forall k :: 0 <= k < |parts| ==> ',' !in parts[k]
    ensures forall k :: 0 <= k < |parts| ==> PlainName(Strip(parts[k]))
  {
    forall k | 0 <= k < |parts| ensures PlainName(Strip(parts[k])) {
    }
  }

  /** `has_any_role`: the role is one of the listed, stripped names. */
  function HasAnyRole(user: Option<User>, roles: string): (r: bool)
    ensures r <==> LoggedIn(user) && exists k :: 0 <= k < |Split(roles, ',')| && Strip(Split(roles, ',')[k]) == user.value.role
  {
    if user.None? || !user.value.isAuthenticated then false
    else
      var list := RoleList(roles);
      assert forall k :: 0 <= k < |list| ==> list[k] == Strip(Split(roles, ',')[k]);
      user.value.role in list
  }

  /** `user_can_access`: administrators and superusers always, otherwise by membership. */
  function UserCanAccess(user: Option<User>, roles: seq<string>): (r: bool)
    ensures r <==> LoggedIn(user) && (IsAdmin(user.value) || user.value.isSuperuser || user.value.role in roles)
  {
    if user.None? || !user.value.isAuthenticated then false
    else if IsAdmin(user.value) || user.value.isSuperuser then true
    else user.value.role in roles
  }

  /** A role name as it may appear in a list: no comma and no surrounding whitespace. */
  predicate PlainName(name: string) {
    ',' !in name && (name == [] || (!IsSpace(name[0]) && !IsSpace(name[|name| - 1])))
  }

  /**
   * Written as a comma-separated list, with or without spaces after the
   * commas, plain role names are matched exactly as listed.
   */
  lemma HasAnyRoleOfJoinedNames(user: Option<User>, names: seq<string>)
    requires |names| >= 1
    requires forall k :: 0 <= k < |names| ==> PlainName(names[k])
    ensures HasAnyRole(user, Join(names, ',')) <==> LoggedIn(user) && user.value.role in names
  {
    RoleListOfJoinedNames(names);
  }

  /** Plain names joined with commas read back as the same list. */
  lemma RoleListOfJoinedNames(names: seq<string>)
    requires |names| >= 1
    requires forall k :: 0 <= k < |names| ==> PlainName(names[k])
    ensures RoleList(Join(names, ',')) == names
  {
    SplitJoin(names, ',');
    var list := RoleList(Join(names, ','));
    assert list == names;
  }

  /** A single plain name: `has_any_role` agrees with `has_role`. */
  lemma HasAnyRoleOfOneName(user: Option<User>, name: string)
    requires PlainName(name)
    ensures HasAnyRole(user, name) == HasRole(user, name)
  {
    PlainNameIsItsOwnList(name);
  }

  /** A plain name read as a list is the one-element list of itself. */
  lemma PlainNameIsItsOwnList(name: string)
    requires PlainName(name)
    ensures RoleList(name) == [name]
  {
    SplitWithoutSeparator(name, ',');
  }

  /** `user_can_access` decides as the `role_required` decorator lets a view run. */
  lemma UserCanAccessMatchesDecorator(u: User, roles: seq<string>)
    ensures UserCanAccess(Some(u), roles) <==> RoleRequired(roles, u) == Allow
  {
  }

  /**
   * The filters have no administrator override; the tag has one. For
   * anyone else the tag and the list filter agree.
   */
  lemma FiltersWithoutOverride(u: User, names: seq<string>)
    requires |names| >= 1
    requires forall k :: 0 <= k < |names| ==> PlainName(names[k])
    ensures u.isAuthenticated && IsAdmin(u) ==> UserCanAccess(Some(u), names) && !HasRole(Some(u), OperatorRole)
    ensures !IsAdmin(u) && !u.isSuperuser ==> UserCanAccess(Some(u), names) == HasAnyRole(Some(u), Join(names, ','))
    ensures !HasRole(None, OperatorRole) && !HasAnyRole(None, Join(names, ',')) && !UserCanAccess(None, names)
  {
    HasAnyRoleOfJoinedNames(Some(u), names);
    HasAnyRoleOfJoinedNames(None, names);
  }
}
