/**
 * The exported operations. The D1 handle is not modelled: each operation takes
 * the store's answer as a function of the prepared statement and its bind
 * list (`first`, `all` or `run`), binds its arguments, and maps the answer.
 * Each operation's contract records that its statement's kind matches the call
 * it makes: `one` statements use `first`, `many` ones `all`, `exec` ones `run`.
 */
module Querier {
  import opened Wrappers
  import opened Statements
  import opened Binders
  import opened Models
  import opened Rows

  /** Looks an account up by `id`; the store's first row, or null, decoded. */
  function GetAccount(first: (Statement, seq<BindValue>) -> Option<RawAccountRow>, args: GetAccountParams): (r: Option<Account>)
    ensures GetAccountQuery.kind == One
    ensures forall binds ::
      FillsPlaceholders(GetAccountQuery, GetAccountFields(args), binds) ==>
        && (r.None? <==> first(GetAccountQuery, binds).None?)
        && (r.Some? ==> AccountColumns(r.value) == first(GetAccountQuery, binds).value)
  {
    FillIsUnique(GetAccountQuery, GetAccountFields(args), BindGetAccount(args));
    GetAccountResult(first(GetAccountQuery, BindGetAccount(args)))
  }

  /** Lists every account; the statement has no placeholders and nothing is bound. */
  function ListAccounts<Rest>(all: Statement -> D1Result<RawAccountRow, Rest>): (r: D1Result<Account, Rest>)
    ensures ListAccountsQuery.kind == Many
    ensures PlaceholderSet(ListAccountsQuery.text) == {}
    ensures r.rest == all(ListAccountsQuery).rest
    ensures r.results.None? <==> all(ListAccountsQuery).results.None?
    ensures r.results.Some? ==>
      var raws := all(ListAccountsQuery).results.value;
      && |r.results.value| == |raws|
      && forall i :: 0 <= i < |raws| ==> AccountColumns(r.results.value[i]) == raws[i]
  {
    ListAccountsResult(all(ListAccountsQuery))
  }

  /** Inserts an account; the store's execution summary is returned as is. */
  function CreateAccount<Summary>(run: (Statement, seq<BindValue>) -> Summary, args: CreateAccountParams): (summary: Summary)
    ensures CreateAccountQuery.kind == Exec
    ensures forall binds ::
      FillsPlaceholders(CreateAccountQuery, CreateAccountFields(args), binds) ==>
        summary == run(CreateAccountQuery, binds)
  {
    FillIsUnique(CreateAccountQuery, CreateAccountFields(args), BindCreateAccount(args));
    run(CreateAccountQuery, BindCreateAccount(args))
  }

  /** Renames an account; the RETURNING row, or null when no `id` matched, decoded. */
  function UpdateAccountDisplayName(first: (Statement, seq<BindValue>) -> Option<RawAccountRow>, args: UpdateAccountDisplayNameParams): (r: Option<Account>)
    ensures UpdateAccountDisplayNameQuery.kind == One
    ensures forall binds ::
      FillsPlaceholders(UpdateAccountDisplayNameQuery, UpdateAccountDisplayNameFields(args), binds) ==>
        && (r.None? <==> first(UpdateAccountDisplayNameQuery, binds).None?)
        && (r.Some? ==> AccountColumns(r.value) == first(UpdateAccountDisplayNameQuery, binds).value)
  {
    FillIsUnique(UpdateAccountDisplayNameQuery, UpdateAccountDisplayNameFields(args), BindUpdateAccountDisplayName(args));
    UpdateAccountDisplayNameResult(first(UpdateAccountDisplayNameQuery, BindUpdateAccountDisplayName(args)))
  }

  function DeleteAccount<Summary>(run: (Statement, seq<BindValue>) -> Summary, args: DeleteAccountParams): (summary: Summary)
    ensures DeleteAccountQuery.kind == Exec
    ensures forall binds ::
      FillsPlaceholders(DeleteAccountQuery, DeleteAccountFields(args), binds) ==>
        summary == run(DeleteAccountQuery, binds)
  {
    FillIsUnique(DeleteAccountQuery, DeleteAccountFields(args), BindDeleteAccount(args));
    run(DeleteAccountQuery, BindDeleteAccount(args))
  }

  function CreateOrg<Summary>(run: (Statement, seq<BindValue>) -> Summary, args: CreateOrgParams): (summary: Summary)
    ensures CreateOrgQuery.kind == Exec
    ensures forall binds ::
      FillsPlaceholders(CreateOrgQuery, CreateOrgFields(args), binds) ==>
        summary == run(CreateOrgQuery, binds)
  {
    FillIsUnique(CreateOrgQuery, CreateOrgFields(args), BindCreateOrg(args));
    run(CreateOrgQuery, BindCreateOrg(args))
  }

  function CreateOrgAccount<Summary>(run: (Statement, seq<BindValue>) -> Summary, args: CreateOrgAccountParams): (summary: Summary)
    ensures CreateOrgAccountQuery.kind == Exec
    ensures forall binds ::
      FillsPlaceholders(CreateOrgAccountQuery, CreateOrgAccountFields(args), binds) ==>
        summary == run(CreateOrgAccountQuery, binds)
  {
    FillIsUnique(CreateOrgAccountQuery, CreateOrgAccountFields(args), BindCreateOrgAccount(args));
    run(CreateOrgAccountQuery, BindCreateOrgAccount(args))
  }

  /** Looks up an account within an org; null when the pair is not linked. */
  function GetOrgAccount(first: (Statement, seq<BindValue>) -> Option<RawGetOrgAccountRow>, args: GetOrgAccountParams): (r: Option<GetOrgAccountRow>)
    ensures GetOrgAccountQuery.kind == One
    ensures forall binds ::
      FillsPlaceholders(GetOrgAccountQuery, GetOrgAccountFields(args), binds) ==>
        && (r.None? <==> first(GetOrgAccountQuery, binds).None?)
        && (r.Some? ==> Join(AccountColumns(r.value.account), OrgColumns(r.value.org)) == first(GetOrgAccountQuery, binds).value)
  {
    FillIsUnique(GetOrgAccountQuery, GetOrgAccountFields(args), BindGetOrgAccount(args));
    GetOrgAccountResult(first(GetOrgAccountQuery, BindGetOrgAccount(args)))
  }
}
