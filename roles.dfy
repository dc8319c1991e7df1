/** The four fixed roles of the registry and the records keyed by them. */
module Roles {

  datatype RoleKey = AdminRole | FabricanteRole | DistribuidorRole | FarmaciaRole

  /** The key's name, which is also the preimage of its default hash. */
  function RoleName(role: RoleKey): string {
    match role
    case AdminRole => "ADMIN_ROLE"
    case FabricanteRole => "FABRICANTE_ROLE"
    case DistribuidorRole => "DISTRIBUIDOR_ROLE"
    case FarmaciaRole => "FARMACIA_ROLE"
  }

  /** A `Record<ContractRoleKey, T>`: one value for every role. */
  datatype RoleTable<T> = RoleTable(admin: T, fabricante: T, distribuidor: T, farmacia: T) {

    function Get(role: RoleKey): T {
      match role
      case AdminRole => admin
      case FabricanteRole => fabricante
      case DistribuidorRole => distribuidor
      case FarmaciaRole => farmacia
    }

    /** The same record seen as a `Partial<Record<…>>` that has every key. */
    function ToMap(): (m: map<RoleKey, T>)
      ensures m.Keys == {AdminRole, FabricanteRole, DistribuidorRole, FarmaciaRole}
      ensures forall role :: role in m ==> m[role] == Get(role)
    {
      map[AdminRole := admin, FabricanteRole := fabricante,
          DistribuidorRole := distribuidor, FarmaciaRole := farmacia]
    }
  }

  /** `roleStatus`: which roles the connected account holds. */
  type RoleStatus = RoleTable<bool>

  /** The role status of a session with no roles. */
  function NoRoles(): (st: RoleStatus)
    ensures forall role :: !st.Get(role)
  {
    RoleTable(false, false, false, false)
  }

  /** `roleHashes` before the contract has been asked: `id(name)` per role. */
  function DefaultHashes(id: string -> string): (h: RoleTable<string>)
    ensures forall role :: h.Get(role) == id(RoleName(role))
  {
    RoleTable(id("ADMIN_ROLE"), id("FABRICANTE_ROLE"), id("DISTRIBUIDOR_ROLE"), id("FARMACIA_ROLE"))
  }
}
