/** The role administration panel: pick a role and an address, then assign
    or revoke that role with one contract call. `ethers.isAddress` and
    `ethers.id` are parameters; the transaction's fate is a `TxOutcome`. */
module RoleManagement {
  import opened Optional
  import opened JsString
  import opened Chain
  import opened Roles

  datatype RoleAction = Assign | Revoke

  /** The success banner: which action succeeded and its message. */
  datatype Feedback = Feedback(kind: RoleAction, message: string)

  const NoContractText: string := "Conecta tu wallet para gestionar roles."
  const EmptyAddressText: string := "Ingresa la dirección a la que deseas asignar el rol."
  const InvalidAddressText: string := "La dirección ingresada no es válida."
  const GenericFailureText: string := "La transacción fue cancelada o falló."

  /** `resolveRoleHash`: the hash the panel was given for the role, or the
      hash of the role's own name when it was given none. */
  function ResolveRoleHash(hashes: map<RoleKey, string>, role: RoleKey, id: string -> string): (h: string)
    ensures role in hashes ==> h == hashes[role]
    ensures role !in hashes ==> h == id(RoleName(role))
  {
    if role in hashes then hashes[role] else id(RoleName(role))
  }

  /** The application shell always passes a complete table, so the panel
      uses exactly the hash the shell holds for the role. */
  lemma ResolveFromTable(table: RoleTable<string>, role: RoleKey, id: string -> string)
    ensures ResolveRoleHash(table.ToMap(), role, id) == table.Get(role)
  {
  }

  /** With no hash given, the fallback agrees with the shell's initial
      table: both hash the role's name. */
  lemma ResolveWithoutHashes(role: RoleKey, id: string -> string)
    ensures ResolveRoleHash(map[], role, id) == DefaultHashes(id).Get(role)
  {
  }

  /** The text shown for a thrown value: an `Error`'s own message, any other
      value the generic failure text. */
  function ErrorMessage(thrown: Thrown): (m: string)
    ensures thrown.ErrorValue? ==> m == thrown.message
    ensures thrown.OtherValue? ==> m == GenericFailureText
  {
    match thrown
    case ErrorValue(message) => message
    case OtherValue => GenericFailureText
  }

  /** The banner text, never the failure text. */
  function SuccessText(action: RoleAction): (text: string)
    ensures text != GenericFailureText
  {
    match action
    case Assign => "Rol asignado correctamente."
    case Revoke => "Rol revocado correctamente."
  }

  /** The verdict of the three checks: the error that stops the action, or
      the trimmed address to act on. */
  datatype Validation = Invalid(message: string) | Valid(address: string)

  /** The checks of `handleRoleAction` in their order: a contract, a
      non-blank address, an address `isAddress` accepts. */
  function ValidateRoleAction(hasContract: bool, targetAddress: string, isAddress: string -> bool): (v: Validation)
    ensures v.Valid? <==> hasContract && !AllWhitespace(targetAddress) && isAddress(Trim(targetAddress))
    ensures !hasContract ==> v == Invalid(NoContractText)
    ensures hasContract && AllWhitespace(targetAddress) ==> v == Invalid(EmptyAddressText)
    ensures hasContract && !AllWhitespace(targetAddress) && !isAddress(Trim(targetAddress)) ==>
              v == Invalid(InvalidAddressText)
    ensures v.Valid? ==> v.address == Trim(targetAddress) && v.address != []
  {
    TrimEmptyIffAllWhitespace(targetAddress);
    if !hasContract then Invalid(NoContractText)
    else
      var trimmed := Trim(targetAddress);
      if trimmed == "" then Invalid(EmptyAddressText)
      else if !isAddress(trimmed) then Invalid(InvalidAddressText)
      else Valid(trimmed)
  }

  /** The address handed to the contract carries no surrounding whitespace. */
  lemma ValidAddressIsTrimmed(hasContract: bool, targetAddress: string, isAddress: string -> bool)
    ensures var v := ValidateRoleAction(hasContract, targetAddress, isAddress);
            v.Valid? ==> !IsWhitespace(v.address[0]) && !IsWhitespace(v.address[|v.address| - 1])
  {
    TrimEnds(targetAddress);
  }

  /** The one write an action makes. */
  function ActionCall(action: RoleAction, roleHash: string, address: string): (call: ContractCall)
    ensures call.AsignarRol? <==> action == Assign
    ensures call.RevocarRol? <==> action == Revoke
    ensures (call.AsignarRol? || call.RevocarRol?) && call.roleHash == roleHash && call.account == address
  {
    match action
    case Assign => AsignarRol(roleHash, address)
    case Revoke => RevocarRol(roleHash, address)
  }

  /** The panel's state. `contract` and `roleHashes` are its props. */
  class RoleForm {
    var contract: Option<Contract>
    var roleHashes: map<RoleKey, string>
    var selectedRole: RoleKey
    var targetAddress: string
    var isSubmitting: bool
    var feedback: Option<Feedback>
    var error: Option<string>
    /** The writes sent to the contract, oldest first. */
    ghost var calls: seq<ContractCall>

    constructor (contract: Option<Contract>, roleHashes: map<RoleKey, string>)
      ensures this.contract == contract && this.roleHashes == roleHashes
      ensures selectedRole == FabricanteRole && targetAddress == "" && !isSubmitting
      ensures feedback == None && error == None && calls == []
    {
      this.contract := contract;
      this.roleHashes := roleHashes;
      selectedRole := FabricanteRole;
      targetAddress := "";
      isSubmitting := false;
      feedback := None;
      error := None;
      calls := [];
    }

    /** The role select's `onChange`. */
    method SelectRole(role: RoleKey)
      modifies this`selectedRole
      ensures selectedRole == role
    {
      selectedRole := role;
    }

    /** The address input's `onChange`. */
    method ChangeAddress(value: string)
      modifies this`targetAddress
      ensures targetAddress == value
    {
      targetAddress := value;
    }

    /** `handleRoleAction`: clear the error and the banner, run the checks,
        then make exactly one call with the resolved hash and the trimmed
        address. Success shows the banner and empties the address; failure
        shows the thrown value's message; either way nothing is being
        submitted afterwards. */
    method HandleRoleAction(action: RoleAction, isAddress: string -> bool, id: string -> string, tx: TxOutcome)
      modifies this`error, this`feedback, this`isSubmitting, this`targetAddress, this`calls
      ensures var v := ValidateRoleAction(contract.Some?, old(targetAddress), isAddress);
              && (v.Invalid? ==>
                    && error == Some(v.message) && feedback == None && calls == old(calls)
                    && targetAddress == old(targetAddress) && isSubmitting == old(isSubmitting))
              && (v.Valid? ==>
                    && calls == old(calls) + [ActionCall(action, ResolveRoleHash(roleHashes, selectedRole, id), v.address)]
                    && !isSubmitting)
              && (v.Valid? && tx.Confirmed? ==>
                    feedback == Some(Feedback(action, SuccessText(action))) && error == None && targetAddress == "")
              && (v.Valid? && tx.Failed? ==>
                    error == Some(ErrorMessage(tx.thrown)) && feedback == None && targetAddress == old(targetAddress))
    {
      error := None;
      feedback := None;
      var check := ValidateRoleAction(contract.Some?, targetAddress, isAddress);
      match check {
        case Invalid(message) =>
          error := Some(message);
        case Valid(address) =>
          isSubmitting := true;
          var roleHash := ResolveRoleHash(roleHashes, selectedRole, id);
          calls := calls + [ActionCall(action, roleHash, address)];
          match tx {
            case Confirmed(_) =>
              feedback := Some(Feedback(action, SuccessText(action)));
              targetAddress := "";
            case Failed(thrown) =>
              error := Some(ErrorMessage(thrown));
          }
          isSubmitting := false;
      }
    }
  }
}
