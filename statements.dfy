/**
 * The statement registry: each generated statement's name, operation kind and
 * SQL text, with the text held as literal pieces and numbered placeholders.
 */
module Statements {

  /** The operation kind in a statement's `-- name: X :kind` header. */
  datatype Kind = One | Many | Exec

  /** A piece of SQL text: literal characters, or a slot. In a statement the
      slot holds the placeholder number `n` of `?n`; once bound it holds a value. */
  datatype Fragment<+S> = Sql(text: string) | Slot(slot: S)

  /** A generated statement. `params` names, for placeholder `?k`, the field of
      the arguments record that fills it (entry k - 1). */
  datatype Statement = Statement(name: string, kind: Kind, text: seq<Fragment<nat>>, params: seq<string>)

  const GetAccountQuery := Statement("GetAccount", One,
    [Sql("SELECT pk, id, display_name, email\nFROM account\nWHERE id = "), Slot(1)],
    ["id"])

  const ListAccountsQuery := Statement("ListAccounts", Many,
    [Sql("SELECT pk, id, display_name, email\nFROM account")],
    [])

  const CreateAccountQuery := Statement("CreateAccount", Exec,
    [Sql("INSERT INTO account (id, display_name, email)\nVALUES ("), Slot(1), Sql(", "), Slot(2), Sql(", "), Slot(3), Sql(")")],
    ["id", "displayName", "email"])

  const UpdateAccountDisplayNameQuery := Statement("UpdateAccountDisplayName", One,
    [Sql("UPDATE account\nSET display_name = "), Slot(1), Sql("\nWHERE id = "), Slot(2),
     Sql("\nRETURNING pk, id, display_name, email")],
    ["displayName", "id"])

  const DeleteAccountQuery := Statement("DeleteAccount", Exec,
    [Sql("DELETE FROM account\nWHERE id = "), Slot(1)],
    ["id"])

  const CreateOrgQuery := Statement("CreateOrg", Exec,
    [Sql("INSERT INTO org (id, display_name)\nVALUES ("), Slot(1), Sql(", "), Slot(2), Sql(")")],
    ["id", "displayName"])

  const CreateOrgAccountQuery := Statement("CreateOrgAccount", Exec,
    [Sql("INSERT INTO org_account (org_pk, account_pk)\nVALUES ("), Slot(1), Sql(", "), Slot(2), Sql(")")],
    ["orgPk", "accountPk"])

  const GetOrgAccountQuery := Statement("GetOrgAccount", One,
    [Sql("SELECT account.pk AS account_pk, account.id AS account_id, account.display_name AS account_display_name, account.email AS account_email,\n"
       + "  org.pk AS org_pk, org.id AS org_id, org.display_name AS org_display_name\n"
       + "FROM account\n  JOIN org_account ON account.pk = org_account.account_pk\n"
       + "  JOIN org ON org_account.org_pk = org.pk\nWHERE org.id = "),
     Slot(1), Sql("\n  AND account.id = "), Slot(2)],
    ["orgId", "accountId"])

  /** The placeholder numbers the text uses, each once. */
  function PlaceholderSet(text: seq<Fragment<nat>>): (r: set<nat>)
    ensures forall n :: n in r <==> Slot(n) in text
  {
    if text == [] then {}
    else
      (match text[0] case Sql(_) => {} case Slot(n) => {n})
      + PlaceholderSet(text[1..])
  }

  /** The placeholders are numbered `?1` .. `?n` with none skipped, and each
      number has exactly one argument field that fills it. */
  predicate WellFormed(q: Statement)
  {
    PlaceholderSet(q.text) == Range(|q.params|)
  }

  /** The numbers 1 .. n. */
  function Range(n: nat): (r: set<nat>)
    ensures forall k :: k in r <==> 1 <= k <= n
  {
    if n == 0 then {} else Range(n - 1) + {n}
  }

  lemma {:induction false} RangeSize(n: nat)
    ensures |Range(n)| == n
  {
    if n > 0 {
      RangeSize(n - 1);
      assert n !in Range(n - 1);
    }
  }

  /** In a well-formed statement the number of distinct placeholders is the
      number of argument fields it binds. */
  lemma DistinctPlaceholders(q: Statement)
    requires WellFormed(q)
    ensures |PlaceholderSet(q.text)| == |q.params|
  {
    RangeSize(|q.params|);
  }

  lemma GetAccountWellFormed()
    ensures WellFormed(GetAccountQuery)
    ensures |PlaceholderSet(GetAccountQuery.text)| == |GetAccountQuery.params|
  {
    assert WellFormed(GetAccountQuery);
    DistinctPlaceholders(GetAccountQuery);
  }

  lemma ListAccountsWellFormed()
    ensures WellFormed(ListAccountsQuery)
    ensures |PlaceholderSet(ListAccountsQuery.text)| == |ListAccountsQuery.params|
  {
    assert WellFormed(ListAccountsQuery);
    DistinctPlaceholders(ListAccountsQuery);
  }

  lemma CreateAccountWellFormed()
    ensures WellFormed(CreateAccountQuery)
    ensures |PlaceholderSet(CreateAccountQuery.text)| == |CreateAccountQuery.params|
  {
    assert WellFormed(CreateAccountQuery);
    DistinctPlaceholders(CreateAccountQuery);
  }

  lemma UpdateAccountDisplayNameWellFormed()
    ensures WellFormed(UpdateAccountDisplayNameQuery)
    ensures |PlaceholderSet(UpdateAccountDisplayNameQuery.text)| == |UpdateAccountDisplayNameQuery.params|
  {
    assert WellFormed(UpdateAccountDisplayNameQuery);
    DistinctPlaceholders(UpdateAccountDisplayNameQuery);
  }

  lemma DeleteAccountWellFormed()
    ensures WellFormed(DeleteAccountQuery)
    ensures |PlaceholderSet(DeleteAccountQuery.text)| == |DeleteAccountQuery.params|
  {
    assert WellFormed(DeleteAccountQuery);
    DistinctPlaceholders(DeleteAccountQuery);
  }

  lemma CreateOrgWellFormed()
    ensures WellFormed(CreateOrgQuery)
    ensures |PlaceholderSet(CreateOrgQuery.text)| == |CreateOrgQuery.params|
  {
    assert WellFormed(CreateOrgQuery);
    DistinctPlaceholders(CreateOrgQuery);
  }

  lemma CreateOrgAccountWellFormed()
    ensures WellFormed(CreateOrgAccountQuery)
    ensures |PlaceholderSet(CreateOrgAccountQuery.text)| == |CreateOrgAccountQuery.params|
  {
    assert WellFormed(CreateOrgAccountQuery);
    DistinctPlaceholders(CreateOrgAccountQuery);
  }

  lemma GetOrgAccountWellFormed()
    ensures WellFormed(GetOrgAccountQuery)
    ensures |PlaceholderSet(GetOrgAccountQuery.text)| == |GetOrgAccountQuery.params|
  {
    assert WellFormed(GetOrgAccountQuery);
    DistinctPlaceholders(GetOrgAccountQuery);
  }

  /** The statement with placeholder `?n` replaced by `binds[n - 1]`, which is
      how the store fills numbered parameters from the bind list. */
  function Substitute<V>(text: seq<Fragment<nat>>, binds: seq<V>): (r: seq<Fragment<V>>)
    requires forall i :: 0 <= i < |text| && text[i].Slot? ==> 1 <= text[i].slot <= |binds|
  {
    seq(|text|, i requires 0 <= i < |text| =>
      match text[i]
      case Sql(s) => Sql(s)
      case Slot(n) => Slot(binds[n - 1]))
  }
}
