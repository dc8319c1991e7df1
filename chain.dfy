/** The boundary with the wallet and the MedicineRegistry contract. Nothing
    behind it is modelled: a transaction's fate, the wallet's answer and the
    library predicates arrive as parameters. */
module Chain {

  /** A contract binding: the registry at the configured address, with the
      signer of the connected account. */
  datatype Contract = Contract(signer: string)

  /** What a failed `await` throws: an `Error` with its message, or any other
      value. */
  datatype Thrown = ErrorValue(message: string) | OtherValue

  /** The fate of one write: sent and confirmed by `tx.wait()` with the
      transaction's hash, or thrown while sending or while waiting. */
  datatype TxOutcome = Confirmed(hash: string) | Failed(thrown: Thrown)

  /** The responsible party as the contract receives it. */
  datatype Responsable = Responsable(nombre: string, dni: string, telefono: string, correo: string)

  /** The writes the components issue, with their arguments. */
  datatype ContractCall =
    | RegistrarLote(name: string, activeIngredient: string, mfgDate: int, expDate: int,
                    seriesCode: string, responsable: Responsable, quantity: int)
    | AsignarRol(roleHash: string, account: string)
    | RevocarRol(roleHash: string, account: string)
}
