/** The authorisation matrix of roles.rs: pure decisions over a session's identity. */
module Roles {
  import opened Wrappers
  import opened Messages

  datatype CockpitRole = Viewer | Operator | Admin | Dispatcher

  datatype Identity =
    | Device(device: string)
    | Account(username: string, cockpit: CockpitRole, vehicles: seq<string>)
    | Legacy

  predicate CanPull(role: CockpitRole, vehicle: string, allowed: seq<string>) {
    match role
    case Admin => true
    case Dispatcher => true
    case Viewer => vehicle in allowed
    case Operator => vehicle in allowed
  }

  predicate RoleCanControl(role: CockpitRole) {
    role.Operator? || role.Admin?
  }

  predicate RoleCanEmergency(role: CockpitRole) {
    role.Operator? || role.Admin?
  }

  predicate HostJoinDenied(who: Identity) {
    who.Account?
  }

  predicate CanControl(who: Identity) {
    who.Account? ==> RoleCanControl(who.cockpit)
  }

  /** A room without an owner is open to all; an owned one to its device, to accounts that may pull
      the owner's streams, and to identities outside the matrix. */
  predicate JoinVehicleRoomDenied(who: Identity, owner: Option<string>) {
    owner.Some? &&
    match who
    case Device(d) => owner.value != d
    case Account(_, role, vehicles) => !CanPull(role, owner.value, vehicles)
    case Legacy => false
  }

  predicate EmergencyDenied(who: Identity, owner: Option<string>) {
    match who
    case Device(_) => true
    case Account(_, role, vehicles) =>
      !RoleCanEmergency(role) || owner.None? || !CanPull(role, owner.value, vehicles)
    case Legacy => false
  }

  predicate StatusReportDenied(who: Identity, role: PeerRole) {
    !who.Device? && role != Host
  }
}
