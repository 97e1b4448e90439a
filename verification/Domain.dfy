/** The vocabulary every other module shares: what an indexed event carries. */
module Domain {

  datatype Option<+T> = None | Some(value: T)

  /** What comes of a write: it may throw, and it may throw after it took effect. */
  datatype Reply = Written | Threw(reached: bool)

  type Address = nat

  /** The value of a `numeric` parameter holding US dollars; the handlers only produce non-negative ones. */
  type Usd = r: real | r >= 0.0

  /** `getRoundRoles` hashes a pool id into its admin and its manager role. The constructors stand
      for those hashes, taken to be injective and distinct; every other hash is a profile role. */
  datatype RoleHash = AdminOf(roundId: nat) | ManagerOf(roundId: nat) | ProfileRole(tag: nat)

  datatype RoleName = Admin | Manager

  function RoundRole(roundId: nat, name: RoleName): RoleHash {
    match name
    case Admin => AdminOf(roundId)
    case Manager => ManagerOf(roundId)
  }

  datatype Status = Pending | Approved | Rejected | Cancelled | InReview

  /** Applications are numbered by their strategy, or named after the recipient. */
  datatype ApplicationId = Index(number: nat) | Recipient(address: Address)

  datatype Payload =
    | PoolCreated(roundId: nat, strategy: Address)
    | RoleGranted(role: RoleHash, account: Address)
    | RoleRevoked(role: RoleHash, account: Address)
    | Registered(id: ApplicationId, anchor: Address)
    | StatusRow(rowIndex: nat, fullRow: nat)
    | UpdatedRegistration(anchor: Address, code: nat)
    | Allocated(anchor: Address, donor: Address)
    | DirectAllocated(donor: Address)
    | TimestampsUpdated
    | Unmodelled

  /** What a handler reads from outside the database while it runs: here, the price. */
  datatype Quote = Quote(usd: Usd)

  function Min(a: int, b: int): (m: int)
    ensures m <= a && m <= b && (m == a || m == b)
  {
    if a <= b then a else b
  }

  function Max(a: int, b: int): (m: int)
    ensures m >= a && m >= b && (m == a || m == b)
  {
    if a >= b then a else b
  }
}
