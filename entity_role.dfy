/** The user role enumeration: a string type with three named values. */
module EntityRole {

  const Admin := "admin"
  const User := "user"
  const Guest := "guest"

  /** `Role.IsValid`: the role is one of the three named values. */
  function IsValid(r: string): (b: bool)
    ensures b <==> r in {Admin, User, Guest}
  {
    r == Admin || r == User || r == Guest
  }

  /** `Role.IsAdmin`: only the admin role, which is a valid one. */
  function IsAdmin(r: string): (b: bool)
    ensures b ==> IsValid(r)
    ensures b <==> r == "admin"
  {
    r == Admin
  }

  /** `Role.IsUser`: only the ordinary user role, a valid one and not the admin role. */
  function IsUser(r: string): (b: bool)
    ensures b ==> IsValid(r) && r != Admin
    ensures b <==> r == "user"
  {
    r == User
  }

  /** `Role.IsGuest`: only the guest role, a valid one and neither of the others. */
  function IsGuest(r: string): (b: bool)
    ensures b ==> IsValid(r) && r != Admin && r != User
    ensures b <==> r == "guest"
  {
    r == Guest
  }

  /** `GetAllRoles`: every valid role, each exactly once, from the most to the least privileged. */
  function AllRoles(): (roles: seq<string>)
    ensures |roles| == 3
    ensures roles[0] == Admin && roles[1] == User && roles[2] == Guest
    ensures forall r :: r in roles <==> IsValid(r)
    ensures forall i, j :: 0 <= i < j < |roles| ==> roles[i] != roles[j]
  {
    [Admin, User, Guest]
  }

  /** `RoleFromString`: a valid role stays as it is, anything else becomes "user"; the result is always valid. */
  function RoleFromString(s: string): (r: string)
    ensures IsValid(r)
    ensures IsValid(s) ==> r == s
    ensures !IsValid(s) ==> r == User
  {
    if IsValid(s) then s else User
  }

  /** The three role tests exclude each other, and a valid role passes exactly one of them. */
  lemma RoleTestsExclusive(r: string)
    ensures !(IsAdmin(r) && IsUser(r)) && !(IsAdmin(r) && IsGuest(r)) && !(IsUser(r) && IsGuest(r))
    ensures IsValid(r) <==> IsAdmin(r) || IsUser(r) || IsGuest(r)
  {
  }

  /** Normalising twice is normalising once. */
  lemma RoleFromStringIdempotent(s: string)
    ensures RoleFromString(RoleFromString(s)) == RoleFromString(s)
  {
  }
}
