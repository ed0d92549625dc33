/** What the login and register forms decide before calling the
    authentication service. */
module FormChecks {
  /** `Proceed`: the service is called; `Refuse`: `errorMessage` is set and
      nothing else happens. */
  datatype SubmitCheck = Proceed | Refuse(message: string)

  const FillAllMessage: string := "Por favor, preencha todos os campos"
}
