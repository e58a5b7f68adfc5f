/**
 * The role route middleware (`middleware/role.ts`): from the `role` cookie
 * and the target path, the page to redirect to, or none.
 */
module RoleMiddleware {
  import opened Js

  const Doctor := "DOCTOR"
  const Patient := "USER"
  const DoctorArea := "/doctor"
  const UserArea := "/user"
  const Home := "/"

  /** The path is accepted for this (truthy) role. */
  predicate Admits(role: string, path: string)
  {
    (StartsWith(path, DoctorArea) ==> role == Doctor) &&
    (StartsWith(path, UserArea) ==> role == Patient)
  }

  /**
   * The middleware's decision. A missing or empty role goes home whatever
   * the path; otherwise a path in the other role's area goes to one's own
   * area, and every other path passes.
   */
  function Redirect(role: Option<string>, path: string): (r: Option<string>)
    ensures !Truthy(role) ==> r == Some(Home)
    ensures Truthy(role) && StartsWith(path, DoctorArea) && role.value != Doctor ==> r == Some(UserArea)
    ensures Truthy(role) && StartsWith(path, UserArea) && role.value != Patient ==> r == Some(DoctorArea)
    ensures r == None <==> Truthy(role) && Admits(role.value, path)
    ensures r.Some? ==> r.value in {Home, UserArea, DoctorArea}
  {
    AreasDisjoint(path);
    if !Truthy(role) then Some(Home)
    else if StartsWith(path, DoctorArea) && role.value != Doctor then Some(UserArea)
    else if StartsWith(path, UserArea) && role.value != Patient then Some(DoctorArea)
    else None
  }

  /** No path lies in both areas, so the two prefix checks never compete. */
  lemma AreasDisjoint(path: string)
    ensures !(StartsWith(path, DoctorArea) && StartsWith(path, UserArea))
  {
    if StartsWith(path, DoctorArea) {
      assert path[1] == DoctorArea[1] == 'd';
    }
  }

  /** A DOCTOR is never turned away from the doctor area, nor a USER from the user area. */
  lemma OwnAreaAdmitted(role: Option<string>, path: string)
    requires (role == Some(Doctor) && StartsWith(path, DoctorArea))
          || (role == Some(Patient) && StartsWith(path, UserArea))
    ensures Redirect(role, path) == None
  {
    AreasDisjoint(path);
  }

  /**
   * For the two known roles the redirect lands on a page the rule admits,
   * so it never redirects twice.
   */
  lemma KnownRoleRedirectSettles(role: Option<string>, path: string)
    requires role == Some(Doctor) || role == Some(Patient)
    ensures Redirect(role, path).Some? ==> Redirect(role, Redirect(role, path).value) == None
  {
    AreasDisjoint(path);
    AreasDisjoint(DoctorArea);
    AreasDisjoint(UserArea);
  }

  /**
   * A truthy role that is neither DOCTOR nor USER is sent from each area to
   * the other, and back again.
   */
  lemma OtherRoleBounces(role: Option<string>)
    requires Truthy(role) && role.value != Doctor && role.value != Patient
    ensures Redirect(role, DoctorArea) == Some(UserArea)
    ensures Redirect(role, UserArea) == Some(DoctorArea)
  {
  }
}
