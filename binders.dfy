/**
 * The parameter binders: each statement's arguments record becomes the
 * ordered list handed to `bind`, whose entry k - 1 fills placeholder `?k`.
 */
module Binders {
  import opened Wrappers
  import opened Statements

  /** A value handed to `bind`: a string, a number, or `null`. */
  datatype BindValue = Text(s: string) | Number(n: int) | Null

  /** A `string | null` argument as passed to `bind`: null stays null. */
  function NullableText(s: Option<string>): (v: BindValue)
    ensures v == Null <==> s.None?
    ensures s.Some? ==> v == Text(s.value)
  {
    match s
    case None => Null
    case Some(t) => Text(t)
  }

  /** `binds` holds, at entry k - 1, the value of the field that the statement
      names for placeholder `?k`; there is one entry per named field, and every
      field of the arguments record is bound somewhere. */
  predicate FillsPlaceholders(q: Statement, fields: map<string, BindValue>, binds: seq<BindValue>)
  {
    && |binds| == |q.params|
    && (forall k :: 0 <= k < |binds| ==> q.params[k] in fields && binds[k] == fields[q.params[k]])
    && (forall f :: f in fields ==> f in q.params)
  }

  /** At most one bind list fills a statement from a given record. */
  lemma FillIsUnique(q: Statement, fields: map<string, BindValue>, binds: seq<BindValue>)
    requires FillsPlaceholders(q, fields, binds)
    ensures forall other :: FillsPlaceholders(q, fields, other) ==> other == binds
  {
    forall other | FillsPlaceholders(q, fields, other)
      ensures other == binds
    {
      assert forall k :: 0 <= k < |binds| ==> other[k] == binds[k];
    }
  }

  /** A bind list that fills a well-formed statement supplies exactly one value
      per distinct placeholder, so every `?n` in the text has a value. */
  lemma FillCoversText(q: Statement, fields: map<string, BindValue>, binds: seq<BindValue>)
    requires WellFormed(q) && FillsPlaceholders(q, fields, binds)
    ensures |binds| == |PlaceholderSet(q.text)|
    ensures forall i :: 0 <= i < |q.text| && q.text[i].Slot? ==> 1 <= q.text[i].slot <= |binds|
  {
    DistinctPlaceholders(q);
    forall i | 0 <= i < |q.text| && q.text[i].Slot?
      ensures 1 <= q.text[i].slot <= |binds|
    {
      assert Slot(q.text[i].slot) in q.text;
      assert q.text[i].slot in Range(|q.params|);
    }
  }

  /** Filling any well-formed statement puts, in place of each `?n`, the value
      of the field the statement names for `?n`, and leaves the literal SQL alone. */
  lemma BoundSlotsCarryNamedFields(q: Statement, fields: map<string, BindValue>, binds: seq<BindValue>)
    requires WellFormed(q) && FillsPlaceholders(q, fields, binds)
    ensures forall i :: 0 <= i < |q.text| && q.text[i].Slot? ==> 1 <= q.text[i].slot <= |binds|
    ensures var t := Substitute(q.text, binds);
      && |t| == |q.text|
      && (forall i :: 0 <= i < |q.text| && q.text[i].Slot? ==>
            q.params[q.text[i].slot - 1] in fields && t[i] == Slot(fields[q.params[q.text[i].slot - 1]]))
      && (forall i :: 0 <= i < |q.text| && q.text[i].Sql? ==> t[i] == Sql(q.text[i].text))
  {
    FillCoversText(q, fields, binds);
  }

  datatype GetAccountParams = GetAccountParams(id: string)

  function GetAccountFields(args: GetAccountParams): map<string, BindValue>
  {
    map["id" := Text(args.id)]
  }

  function BindGetAccount(args: GetAccountParams): (binds: seq<BindValue>)
    ensures FillsPlaceholders(GetAccountQuery, GetAccountFields(args), binds)
  {
    [Text(args.id)]
  }

  datatype CreateAccountParams = CreateAccountParams(id: string, displayName: string, email: Option<string>)

  function CreateAccountFields(args: CreateAccountParams): map<string, BindValue>
  {
    map["id" := Text(args.id), "displayName" := Text(args.displayName), "email" := NullableText(args.email)]
  }

  function BindCreateAccount(args: CreateAccountParams): (binds: seq<BindValue>)
    ensures FillsPlaceholders(CreateAccountQuery, CreateAccountFields(args), binds)
    ensures binds[2] == Null <==> args.email.None?
  {
    [Text(args.id), Text(args.displayName), NullableText(args.email)]
  }

  datatype UpdateAccountDisplayNameParams = UpdateAccountDisplayNameParams(displayName: string, id: string)

  function UpdateAccountDisplayNameFields(args: UpdateAccountDisplayNameParams): map<string, BindValue>
  {
    map["displayName" := Text(args.displayName), "id" := Text(args.id)]
  }

  function BindUpdateAccountDisplayName(args: UpdateAccountDisplayNameParams): (binds: seq<BindValue>)
    ensures FillsPlaceholders(UpdateAccountDisplayNameQuery, UpdateAccountDisplayNameFields(args), binds)
  {
    [Text(args.displayName), Text(args.id)]
  }

  datatype DeleteAccountParams = DeleteAccountParams(id: string)

  function DeleteAccountFields(args: DeleteAccountParams): map<string, BindValue>
  {
    map["id" := Text(args.id)]
  }

  function BindDeleteAccount(args: DeleteAccountParams): (binds: seq<BindValue>)
    ensures FillsPlaceholders(DeleteAccountQuery, DeleteAccountFields(args), binds)
  {
    [Text(args.id)]
  }

  datatype CreateOrgParams = CreateOrgParams(id: string, displayName: string)

  function CreateOrgFields(args: CreateOrgParams): map<string, BindValue>
  {
    map["id" := Text(args.id), "displayName" := Text(args.displayName)]
  }

  function BindCreateOrg(args: CreateOrgParams): (binds: seq<BindValue>)
    ensures FillsPlaceholders(CreateOrgQuery, CreateOrgFields(args), binds)
  {
    [Text(args.id), Text(args.displayName)]
  }

  /** Surrogate keys are JavaScript numbers; here they are unbounded integers. */
  datatype CreateOrgAccountParams = CreateOrgAccountParams(orgPk: int, accountPk: int)

  function CreateOrgAccountFields(args: CreateOrgAccountParams): map<string, BindValue>
  {
    map["orgPk" := Number(args.orgPk), "accountPk" := Number(args.accountPk)]
  }

  function BindCreateOrgAccount(args: CreateOrgAccountParams): (binds: seq<BindValue>)
    ensures FillsPlaceholders(CreateOrgAccountQuery, CreateOrgAccountFields(args), binds)
  {
    [Number(args.orgPk), Number(args.accountPk)]
  }

  datatype GetOrgAccountParams = GetOrgAccountParams(orgId: string, accountId: string)

  function GetOrgAccountFields(args: GetOrgAccountParams): map<string, BindValue>
  {
    map["orgId" := Text(args.orgId), "accountId" := Text(args.accountId)]
  }

  function BindGetOrgAccount(args: GetOrgAccountParams): (binds: seq<BindValue>)
    ensures FillsPlaceholders(GetOrgAccountQuery, GetOrgAccountFields(args), binds)
  {
    [Text(args.orgId), Text(args.accountId)]
  }

  /** The bound lookup reads `WHERE id = <id>`. */
  lemma GetAccountBoundText(args: GetAccountParams)
    ensures Substitute(GetAccountQuery.text, BindGetAccount(args)) ==
      [Sql("SELECT pk, id, display_name, email\nFROM account\nWHERE id = "), Slot(Text(args.id))]
  {
  }

  /** The bound insert stores id, display name and email, in that column order. */
  lemma CreateAccountBoundText(args: CreateAccountParams)
    ensures Substitute(CreateAccountQuery.text, BindCreateAccount(args)) ==
      [Sql("INSERT INTO account (id, display_name, email)\nVALUES ("), Slot(Text(args.id)), Sql(", "),
       Slot(Text(args.displayName)), Sql(", "), Slot(NullableText(args.email)), Sql(")")]
  {
  }

  /** The bound update reads `SET display_name = <new name> WHERE id = <id>`:
      the new name and the lookup key are not swapped. */
  lemma UpdateAccountDisplayNameBoundText(args: UpdateAccountDisplayNameParams)
    ensures Substitute(UpdateAccountDisplayNameQuery.text, BindUpdateAccountDisplayName(args)) ==
      [Sql("UPDATE account\nSET display_name = "), Slot(Text(args.displayName)), Sql("\nWHERE id = "),
       Slot(Text(args.id)), Sql("\nRETURNING pk, id, display_name, email")]
  {
  }

  lemma DeleteAccountBoundText(args: DeleteAccountParams)
    ensures Substitute(DeleteAccountQuery.text, BindDeleteAccount(args)) ==
      [Sql("DELETE FROM account\nWHERE id = "), Slot(Text(args.id))]
  {
  }

  lemma CreateOrgBoundText(args: CreateOrgParams)
    ensures Substitute(CreateOrgQuery.text, BindCreateOrg(args)) ==
      [Sql("INSERT INTO org (id, display_name)\nVALUES ("), Slot(Text(args.id)), Sql(", "),
       Slot(Text(args.displayName)), Sql(")")]
  {
  }

  lemma CreateOrgAccountBoundText(args: CreateOrgAccountParams)
    ensures Substitute(CreateOrgAccountQuery.text, BindCreateOrgAccount(args)) ==
      [Sql("INSERT INTO org_account (org_pk, account_pk)\nVALUES ("), Slot(Number(args.orgPk)), Sql(", "),
       Slot(Number(args.accountPk)), Sql(")")]
  {
  }

  /** The bound join filters `org.id = <orgId> AND account.id = <accountId>`. */
  lemma GetOrgAccountBoundText(args: GetOrgAccountParams)
    ensures var select := GetOrgAccountQuery.text[0].text;
      && select[|select| - 15..] == "WHERE org.id = "
      && Substitute(GetOrgAccountQuery.text, BindGetOrgAccount(args)) ==
           [Sql(select), Slot(Text(args.orgId)), Sql("\n  AND account.id = "), Slot(Text(args.accountId))]
  {
  }
}
