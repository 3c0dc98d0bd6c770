/**
 * The row decoders: a raw row, keyed by the SQL column names, becomes the
 * logical row, field for field.
 */
module Rows {
  import opened Wrappers
  import opened Models

  /** A physical `account` row as the store returns it, in column naming. The raw
      rows of GetAccount, ListAccounts and UpdateAccountDisplayName have this shape. */
  datatype RawAccountRow = RawAccountRow(pk: int, id: string, display_name: string, email: Option<string>)

  /** Renames a logical account back to its columns; the reference that the
      decoders are checked against. */
  function AccountColumns(row: Account): RawAccountRow
  {
    RawAccountRow(row.pk, row.id, row.displayName, row.email)
  }

  /** The object literal each account decoder builds from a present raw row.
      Nothing is lost: renaming back gives the raw row again. */
  function DecodeAccount(raw: RawAccountRow): (row: Account)
    ensures AccountColumns(row) == raw
  {
    Account(raw.pk, raw.id, raw.display_name, raw.email)
  }

  /** Decoding is also a left inverse: no two logical rows share columns. */
  lemma DecodeAccountColumns(row: Account)
    ensures DecodeAccount(AccountColumns(row)) == row
  {
  }

  /** GetAccount's `.then` step on the store's first row: null stays null. */
  function GetAccountResult(raw: Option<RawAccountRow>): (r: Option<Account>)
    ensures r.None? <==> raw.None?
    ensures r.Some? ==> AccountColumns(r.value) == raw.value
  {
    if raw.Some? then Some(Account(raw.value.pk, raw.value.id, raw.value.display_name, raw.value.email)) else None
  }

  /** UpdateAccountDisplayName's `.then` step on the RETURNING row. */
  function UpdateAccountDisplayNameResult(raw: Option<RawAccountRow>): (r: Option<Account>)
    ensures r.None? <==> raw.None?
    ensures r.Some? ==> AccountColumns(r.value) == raw.value
  {
    if raw.Some? then Some(Account(raw.value.pk, raw.value.id, raw.value.display_name, raw.value.email)) else None
  }

  /** The update returns rows exactly as the lookup does. */
  lemma UpdateResultIsGetResult(raw: Option<RawAccountRow>)
    ensures UpdateAccountDisplayNameResult(raw) == GetAccountResult(raw)
  {
  }

  /** `results.map(...)` in ListAccounts: same length, same order, and entry i
      decoded from raw entry i. */
  function DecodeAccounts(raws: seq<RawAccountRow>): (rows: seq<Account>)
    ensures |rows| == |raws|
    ensures forall i :: 0 <= i < |raws| ==> AccountColumns(rows[i]) == raws[i]
  {
    if raws == [] then []
    else [Account(raws[0].pk, raws[0].id, raws[0].display_name, raws[0].email)] + DecodeAccounts(raws[1..])
  }

  /** Decoding a list that the store returned in two parts decodes each part in
      place: the store's order is kept, nothing is re-sorted. */
  lemma DecodeAccountsAppend(a: seq<RawAccountRow>, b: seq<RawAccountRow>)
    ensures DecodeAccounts(a + b) == DecodeAccounts(a) + DecodeAccounts(b)
  {
  }

  /** The result of `all()`: `results` may be absent; the rest of the record
      (success flag, error, meta) is carried as an opaque value. */
  datatype D1Result<T, Rest> = D1Result(results: Option<seq<T>>, rest: Rest)

  /** ListAccounts' `.then` step: `{...r, results: ...}`. */
  function ListAccountsResult<Rest>(r: D1Result<RawAccountRow, Rest>): (out: D1Result<Account, Rest>)
    ensures out.rest == r.rest
    ensures out.results.None? <==> r.results.None?
    ensures r.results.Some? ==>
      && |out.results.value| == |r.results.value|
      && forall i :: 0 <= i < |r.results.value| ==> out.results.value[i] == DecodeAccount(r.results.value[i])
  {
    D1Result(if r.results.Some? then Some(DecodeAccounts(r.results.value)) else None, r.rest)
  }

  /** The raw row of the GetOrgAccount join: account columns and org columns,
      each prefixed by its table. */
  datatype RawGetOrgAccountRow = RawGetOrgAccountRow(
    account_pk: int, account_id: string, account_display_name: string, account_email: Option<string>,
    org_pk: int, org_id: string, org_display_name: string)

  /** A physical `org` row in column naming. */
  datatype RawOrgRow = RawOrgRow(pk: int, id: string, display_name: string)

  function OrgColumns(org: Org): RawOrgRow
  {
    RawOrgRow(org.pk, org.id, org.displayName)
  }

  /** The `account_*` columns of a join row, prefix removed. */
  function AccountPart(raw: RawGetOrgAccountRow): RawAccountRow
  {
    RawAccountRow(raw.account_pk, raw.account_id, raw.account_display_name, raw.account_email)
  }

  /** The `org_*` columns of a join row, prefix removed. */
  function OrgPart(raw: RawGetOrgAccountRow): RawOrgRow
  {
    RawOrgRow(raw.org_pk, raw.org_id, raw.org_display_name)
  }

  /** The join row rebuilt from its two parts. */
  function Join(account: RawAccountRow, org: RawOrgRow): (raw: RawGetOrgAccountRow)
    ensures AccountPart(raw) == account && OrgPart(raw) == org
  {
    RawGetOrgAccountRow(account.pk, account.id, account.display_name, account.email, org.pk, org.id, org.display_name)
  }

  datatype GetOrgAccountRow = GetOrgAccountRow(account: Account, org: Org)

  /** The object literal GetOrgAccount builds: `account` from the `account_*`
      columns only, `org` from the `org_*` columns only, and joining their
      columns back gives the raw row. */
  function DecodeOrgAccount(raw: RawGetOrgAccountRow): (row: GetOrgAccountRow)
    ensures AccountColumns(row.account) == AccountPart(raw)
    ensures OrgColumns(row.org) == OrgPart(raw)
    ensures Join(AccountColumns(row.account), OrgColumns(row.org)) == raw
  {
    GetOrgAccountRow(
      Account(raw.account_pk, raw.account_id, raw.account_display_name, raw.account_email),
      Org(raw.org_pk, raw.org_id, raw.org_display_name))
  }

  /** No column feeds both records: changing only org columns leaves the account
      unchanged, and changing only account columns leaves the org unchanged. */
  lemma DecodeOrgAccountSeparates(raw1: RawGetOrgAccountRow, raw2: RawGetOrgAccountRow)
    ensures AccountPart(raw1) == AccountPart(raw2) ==> DecodeOrgAccount(raw1).account == DecodeOrgAccount(raw2).account
    ensures OrgPart(raw1) == OrgPart(raw2) ==> DecodeOrgAccount(raw1).org == DecodeOrgAccount(raw2).org
  {
  }

  /** GetOrgAccount's `.then` step: null stays null, a row is split in two. */
  function GetOrgAccountResult(raw: Option<RawGetOrgAccountRow>): (r: Option<GetOrgAccountRow>)
    ensures r.None? <==> raw.None?
    ensures r.Some? ==> AccountColumns(r.value.account) == AccountPart(raw.value)
    ensures r.Some? ==> OrgColumns(r.value.org) == OrgPart(raw.value)
  {
    if raw.Some? then Some(DecodeOrgAccount(raw.value)) else None
  }
}
