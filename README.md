# sqlc D1 querier — a Dafny model

This project models the generated data-access layer in `src/gen/sqlc/querier.ts`. The layer is sqlc's TypeScript output for Cloudflare D1, and its code is pure translation:

- **Statement registry** (`statements.dfy`). Each of the eight statements has a name, an operation kind (`one`, `many`, `exec`) and SQL text. The text is held as literal pieces and numbered placeholders `?n`, with the argument field that fills each placeholder. `WellFormed` says the placeholders are exactly `?1 .. ?n`, one per argument field. `Substitute` fills `?n` from entry `n - 1` of a bind list.
- **Parameter binders** (`binders.dfy`). Each arguments record becomes the ordered list passed to `bind`. Every binder is proved to fill each placeholder with the field named for it (`FillsPlaceholders`), and the bound SQL text is shown per statement. So `UpdateAccountDisplayName` reads `SET display_name = <new name> WHERE id = <id>`.
- **Row decoders** (`rows.dfy`, `models.dfy`). A raw snake_case row becomes a camelCase logical row. Renaming it back gives the raw row again. A null first row stays null. `listAccounts` maps `results` element by element and keeps the rest of the D1 result record. The join row of `getOrgAccount` splits into an `account` built only from `account_*` columns and an `org` built only from `org_*` columns.
- **Operations** (`querier.dfy`). The eight exported functions. The D1 handle's `first()`, `all()` and `run()` are function-valued parameters: they map the prepared statement and its bind list to the store's answer. Each operation asks the store with the placeholder-filling bind list and maps the answer.

Surrogate keys (`pk`) are unbounded integers. `string | null` is `Option<string>`.

## Model

| member | source | states |
|---|---|---|
| Statements.GetAccountWellFormed | src/gen/sqlc/querier.ts:4-7 | GetAccount's SQL uses only `?1`, filled by `id`; its distinct placeholders number as many as its bound fields |
| Statements.ListAccountsWellFormed | src/gen/sqlc/querier.ts:43-45 | ListAccounts' SQL has no placeholder and binds no field; its distinct placeholders number as many as its bound fields |
| Statements.CreateAccountWellFormed | src/gen/sqlc/querier.ts:78-80 | CreateAccount's SQL uses exactly `?1, ?2, ?3`, filled by `id`, `displayName`, `email`; its distinct placeholders number as many as its bound fields |
| Statements.UpdateAccountDisplayNameWellFormed | src/gen/sqlc/querier.ts:98-102 | the update uses exactly `?1` and `?2`, filled by `displayName` and `id`; its distinct placeholders number as many as its bound fields |
| Statements.DeleteAccountWellFormed | src/gen/sqlc/querier.ts:139-141 | DeleteAccount's SQL uses only `?1`, filled by `id`; its distinct placeholders number as many as its bound fields |
| Statements.CreateOrgWellFormed | src/gen/sqlc/querier.ts:157-159 | CreateOrg's SQL uses exactly `?1, ?2`, filled by `id`, `displayName`; its distinct placeholders number as many as its bound fields |
| Statements.CreateOrgAccountWellFormed | src/gen/sqlc/querier.ts:176-178 | CreateOrgAccount's SQL uses exactly `?1, ?2`, filled by `orgPk`, `accountPk`; its distinct placeholders number as many as its bound fields |
| Statements.GetOrgAccountWellFormed | src/gen/sqlc/querier.ts:195-202 | the join uses exactly `?1, ?2`, filled by `orgId`, `accountId`; its distinct placeholders number as many as its bound fields |
| Statements.DistinctPlaceholders | src/gen/sqlc/querier.ts:4-202 | for every statement of the registry: in a well-formed statement the number of distinct placeholders equals the number of bound fields |
| Binders.NullableText | src/gen/sqlc/querier.ts:94 | a `string \| null` argument is bound as null exactly when it is null, else as the same string |
| Binders.FillCoversText | src/gen/sqlc/querier.ts:4-230 | for every statement and its bind call: a bind list that fills a well-formed statement has one value per distinct placeholder and a value for every `?n` in the text |
| Binders.BoundSlotsCarryNamedFields | src/gen/sqlc/querier.ts:4-230 | for every well-formed statement and every bind list that fills it: each `?n` becomes the value of the field named for `?n`, and the literal SQL is unchanged |
| Binders.BindGetAccount | src/gen/sqlc/querier.ts:33 | binds exactly `[id]`, the field named for `?1` |
| Binders.BindCreateAccount | src/gen/sqlc/querier.ts:94 | binds `[id, displayName, email]` in placeholder order, every field used, and binds null for a null email |
| Binders.BindUpdateAccountDisplayName | src/gen/sqlc/querier.ts:129 | binds `[displayName, id]`: position 1 is the new name, position 2 the lookup key |
| Binders.BindDeleteAccount | src/gen/sqlc/querier.ts:153 | binds exactly `[id]` |
| Binders.BindCreateOrg | src/gen/sqlc/querier.ts:172 | binds exactly `[id, displayName]` |
| Binders.BindCreateOrgAccount | src/gen/sqlc/querier.ts:191 | binds exactly `[orgPk, accountPk]` |
| Binders.BindGetOrgAccount | src/gen/sqlc/querier.ts:230 | binds exactly `[orgId, accountId]` |
| Binders.GetAccountBoundText | src/gen/sqlc/querier.ts:4-7 | the bound statement reads `WHERE id = <id>` |
| Binders.CreateAccountBoundText | src/gen/sqlc/querier.ts:78-80 | the bound insert stores id, display name and email under columns `(id, display_name, email)` |
| Binders.UpdateAccountDisplayNameBoundText | src/gen/sqlc/querier.ts:98-102 | the bound update reads `SET display_name = <displayName> WHERE id = <id>` |
| Binders.DeleteAccountBoundText | src/gen/sqlc/querier.ts:139-141 | the bound delete reads `WHERE id = <id>` |
| Binders.CreateOrgBoundText | src/gen/sqlc/querier.ts:157-159 | the bound insert stores id and display name under `(id, display_name)` |
| Binders.CreateOrgAccountBoundText | src/gen/sqlc/querier.ts:176-178 | the bound insert stores the org key and account key under `(org_pk, account_pk)` |
| Binders.GetOrgAccountBoundText | src/gen/sqlc/querier.ts:195-202 | the bound join filters `WHERE org.id = <orgId> AND account.id = <accountId>` |
| Rows.DecodeAccount | src/gen/sqlc/querier.ts:35-40 | single-row decoding loses nothing: renaming the logical row back to columns gives the raw row, email nullability included |
| Rows.DecodeAccountColumns | src/gen/sqlc/querier.ts:13-25 | decoding the columns of a logical row gives that row back |
| Rows.GetAccountResult | src/gen/sqlc/querier.ts:35-40 | a null first row yields null; a present one yields a row whose columns are the raw row |
| Rows.UpdateAccountDisplayNameResult | src/gen/sqlc/querier.ts:131-136 | a null RETURNING row yields null; a present one yields a row whose columns are the raw row |
| Rows.UpdateResultIsGetResult | src/gen/sqlc/querier.ts:131-136 | the update's mapping equals the lookup's, null included |
| Rows.DecodeAccounts | src/gen/sqlc/querier.ts:69-74 | same length and order; entry i is raw entry i renamed |
| Rows.DecodeAccountsAppend | src/gen/sqlc/querier.ts:69-74 | decoding preserves the store's order across any split of the list |
| Rows.ListAccountsResult | src/gen/sqlc/querier.ts:67-75 | the rest of the result record is unchanged; absent `results` stays absent; present ones are mapped element-wise |
| Rows.DecodeOrgAccount | src/gen/sqlc/querier.ts:232-244 | `account` comes from the `account_*` columns, `org` from the `org_*` columns, and joining them back gives the raw row |
| Rows.DecodeOrgAccountSeparates | src/gen/sqlc/querier.ts:233-243 | no column feeds both records: changing only org columns leaves the account unchanged, and vice versa |
| Rows.GetOrgAccountResult | src/gen/sqlc/querier.ts:232-244 | a null row yields null; a present one splits into its account and org columns |
| Querier.GetAccount | src/gen/sqlc/querier.ts:27-41 | the store is asked with the placeholder-filling binds; null stays null; a row is returned losslessly renamed; the statement is of kind `one`, matching the `first` call |
| Querier.ListAccounts | src/gen/sqlc/querier.ts:61-76 | nothing is bound; the store's result comes back with `results` mapped element-wise and the rest unchanged; the statement is of kind `many`, matching the `all` call |
| Querier.CreateAccount | src/gen/sqlc/querier.ts:88-96 | the summary is the store's own answer to the insert with placeholder-filling binds; the statement is of kind `exec`, matching the `run` call |
| Querier.UpdateAccountDisplayName | src/gen/sqlc/querier.ts:123-137 | the store is asked with the placeholder-filling binds; null stays null; a row is returned losslessly renamed; the statement is of kind `one`, matching the `first` call |
| Querier.DeleteAccount | src/gen/sqlc/querier.ts:147-155 | the summary is the store's own answer to the delete with placeholder-filling binds; the statement is of kind `exec`, matching the `run` call |
| Querier.CreateOrg | src/gen/sqlc/querier.ts:166-174 | the summary is the store's own answer to the insert with placeholder-filling binds; the statement is of kind `exec`, matching the `run` call |
| Querier.CreateOrgAccount | src/gen/sqlc/querier.ts:185-193 | the summary is the store's own answer to the insert with placeholder-filling binds; the statement is of kind `exec`, matching the `run` call |
| Querier.GetOrgAccount | src/gen/sqlc/querier.ts:224-245 | the store is asked with the placeholder-filling binds; null stays null; a row splits into account and org that join back to it; the statement is of kind `one`, matching the `first` call |

## Left out

- The D1 calls `prepare`, `bind`, `first`, `all` and `run`, and the `async`/`Promise` chaining. They are I/O on a library whose code is not part of this model. The store's answers are function parameters instead.
- SQL engine behaviour is not modelled: evaluating `WHERE`, `JOIN` and `UPDATE … RETURNING`, uniqueness and foreign-key constraints, and row order. So store-level facts are not stated, for example "create then get returns the row" or "delete then get returns null".
- Errors are not classified, constraint violations included. The code has no distinguishable conflict error: a constraint failure is whatever D1 throws, and store errors propagate unchanged.
- Raw rows are taken as given. The type arguments of `first<...>()` and `all<...>()` (querier.ts:34, 66, 130, 231) are unchecked casts, and the code does not validate rows: a row with a missing column would yield `undefined` fields rather than a failure. The typed `RawAccountRow` and `RawGetOrgAccountRow` cannot express such a row.
- The SQL text of each statement is transcribed as fragments. The model does not prove that joining the fragments reproduces the source's string literal character for character.
- Placeholder names are listed per statement. The model does not derive them from column names by sqlc's naming rule, which lives in the generator and not in this file.
- The `-- name: X :kind` header comment is recorded as the statement's name and kind fields, not as text. The name is documentation only; the kind is read by each operation's contract.
- `pk` is an unbounded integer. JavaScript's float64 `number` and its precision limit are not modelled.
- `./models` is not part of this model. `Account` and `Org` are defined from the object shapes built in `getOrgAccount`.
- The D1 result record's fields other than `results` (success flag, error, meta) are one opaque value, because the code only copies them.
