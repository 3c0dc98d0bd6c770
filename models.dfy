/** The logical records handed to callers, in the application's camel-case naming. */
module Models {
  import opened Wrappers

  /** An account. `email` is nullable independently of the required `displayName`;
      the logical rows of GetAccount, ListAccounts and UpdateAccountDisplayName
      have this same shape. */
  datatype Account = Account(pk: int, id: string, displayName: string, email: Option<string>)

  datatype Org = Org(pk: int, id: string, displayName: string)
}
