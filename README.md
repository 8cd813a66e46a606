# NFT-minting bot backend: store, eligibility, migrator and handlers, in Dafny

This project models the persistence and eligibility layer of a Telegram NFT-minting bot:

- the SQLite store, with its `users`, `nfts` and `sessions` tables and its statements;
- the `canMint` rule, which applies a lifetime cap of 10 mints and a 60-second cooldown;
- the schema migrator, which upgrades an already-populated file;
- the handlers that drive the store: the `/mint` command, and the `web_app_data` dispatcher with its three handlers;
- the `shortenAddress` helper from the shared package.

Each module proves properties about what it models.

Layout (one module per file):

| file | module | what it holds |
|---|---|---|
| wrappers.dfy | `Wrappers` | `Option` and `Result` |
| js_string.dfy | `JsString` | JavaScript truthiness, `slice`, `includes` and number-to-string, as the handlers use them |
| shared.dfy | `Shared` | `shortenAddress` |
| tables.dfy | `Tables` | Rows as datatypes and every statement as a function from the old table to the new one. Also the read-only queries, `canMint`, and the lemmas on them |
| database.dfy | `Db` | `class Database`, a class whose fields are the three tables. It has one method per write statement, each proved equal to its `Tables` function |
| migrations.dfy | `Migrations` | A schema-level model of the file (columns, rows, indexes, `schema_version`), with statements as functions that can halt with an engine error. `class Connection` runs `migrateToV1` etc. statement by statement |
| messages.dfy | `Messages` | Replies the bot sends, as values |
| webapp_handler.dfy | `WebAppHandler` | `handleWebAppData`, `handleMintSuccess`, `handleWalletConnected`, `handleMintError` |
| mint_command.dfy | `MintCommand` | `handleMintCommand` |

Modelling conventions:

- **Clock:** every `Date.now()` and `strftime('%s','now')` is one explicit integer `now`, in seconds.
- **Caller-supplied values:** the session id that `uuidv4` draws is a parameter. So is the configured `WEBAPP_URL`.
- **Payload fields:** a field that a webapp JSON payload lacks, or sets to `null`, is `None`. It is bound as SQL NULL.
- **`bot.sendMessage`:** becomes a returned `Reply`. A handler that throws returns `Threw`, and the dispatcher's catch turns that into `ErrorReply`.
- **Writes before a throw:** they stay in the store, as they do in SQLite without a transaction.
- **Statements and methods:** each statement is a pure function. The methods of `Db.Database`, `Migrations.Connection` and the handlers are imperative, and each is proved to leave exactly the state that function describes.

## Behaviour worth knowing

Some of what the code does is easy to miss on a first reading. The model follows the code in each case below.

- **`createTables` builds a `users` table without `id`** (backend/src/services/database.js:25-27). It is keyed by `telegram_id` and has no `farcaster_fid` and no `platform` column.
  The migrator classifies that shape as old (backend/src/services/migrations.js:44-45). It backs up the tables and drops them, and the next `createTables` builds the same old shape again. `Migrations.CreatedSchemaIsLegacy` proves this chain.
- **`runMigrations` is never called from `initDatabase`** (backend/src/services/database.js:8-20). The migrator is therefore a separate model (`Migrations`) over a schema value. It is not wired into `Db.Database`.
- **Mint recording is not atomic.** In `handleMintSuccess` (backend/src/handlers/webappHandler.js:55-58) the counter increment and the NFT insert are two statements with no transaction around them.
  When the insert fails on a NOT NULL column, the counter is already one ahead. `WebAppHandler.MintSuccessAgreement` states exactly when counts and rows stay in agreement, and `Tables.IncrementAloneBreaksAgreement` shows the broken case.
- **`sessionDB.updateWallet`, `updateData` and `delete` ignore expiry** (backend/src/services/database.js:181-202). They act on an expired row too.
- **Expiry boundary:** `sessionDB.cleanup` deletes with a strict `expires_at < now` (backend/src/services/database.js:205), while `sessionDB.get` reads with `expires_at > now` (backend/src/services/database.js:176).
  So a row expiring exactly at `now` is neither readable nor swept. `Tables.ExpiryBoundary` proves this.
- **`canMint` with no user row returns the bare value `true`** (backend/src/services/database.js:114). It does not return `{ canMint: true }`.
  `handleMintCommand` reads `.canMint` of it, gets `undefined` (falsy), finds no known reason, and falls through to the session. This case is `Tables.MintCheck.NoUserRow`; `/mint` never reaches it because it upserts first (`MintCommand.MintCommandGate`).
- **A `last_mint_at` of 0 is falsy**, so it counts as "never minted" (backend/src/services/database.js:123).

## Model

| member | source | states |
|---|---|---|
| Tables.UpsertUser | backend/src/services/database.js:76-85 | Inserts when the id is absent, with `nfts_minted = 0` and NULL wallet and `last_mint_at`. On an existing id it changes only `username` and `updated_at`. Every other row stays as it was |
| Tables.UpsertTwice | backend/src/services/database.js:76-85 | A repeated create leaves one row with the later username. It keeps the counter, wallet and `last_mint_at` of the first |
| Tables.GetUser | backend/src/services/database.js:87-90 | Returns a row exactly when one exists for that id, and returns that row |
| Tables.UpdateUserWallet | backend/src/services/database.js:92-99 | Sets `wallet_address` and `updated_at` of that row only. Without a row nothing changes |
| Tables.IncrementMintCount | backend/src/services/database.js:101-110 | Raises `nfts_minted` by exactly 1 and sets `last_mint_at = now`, on that row only. Without a row nothing changes |
| Tables.CanMint | backend/src/services/database.js:112-129 | Each outcome holds if and only if its condition does. No row gives the bare `true`. The cap is checked first, so 10 or more mints gives `max_limit` whatever `last_mint_at` is. A truthy `last_mint_at` less than 60 s ago gives `cooldown`, with remaining seconds of at least 1 that end the wait exactly at `last_mint_at + 60` (at most 60 when the clock has not gone back). Otherwise the result is allowed |
| Tables.CooldownAfterMint | backend/src/services/database.js:101-128 | After a recorded mint, `d` seconds later the user is in cooldown with exactly `60 - d` seconds left when `d < 60`, and allowed from `d = 60` on |
| Tables.NftRow | backend/src/services/database.js:134-140 | The insert succeeds exactly when `token_id`, `owner_wallet_address`, `metadata_uri` and `transaction_hash` are all non-NULL. The new row holds exactly the given values, the next id and `minted_at = now` |
| Tables.OwnedBy | backend/src/services/database.js:153 | `WHERE owner_telegram_id = ?`: holds exactly the owner's rows |
| Tables.GetCount | backend/src/services/database.js:152-155 | The count is at most the number of rows, and is zero exactly when no row has that owner |
| Tables.CountAfterAppend | backend/src/services/database.js:152-155 | Appending a row raises its owner's `getCount` by 1 and leaves every other owner's count unchanged |
| Tables.CountWithoutRows | backend/src/services/database.js:152-155 | An owner with no rows has count 0 |
| Tables.InsertAddsRow | backend/src/services/database.js:143 | Inserting one row into the list adds exactly that row to the multiset of rows |
| Tables.InsertKeepsSorted | backend/src/services/database.js:143 | Inserting into a list sorted by `minted_at` descending keeps it sorted |
| Tables.SortedCons | backend/src/services/database.js:143 | A row minted no earlier than every row of a sorted list can be put in front and the list stays sorted |
| Tables.SortByMintedDesc | backend/src/services/database.js:143 | `ORDER BY minted_at DESC`: the result is sorted descending and is a permutation of the input |
| Tables.GetByOwner | backend/src/services/database.js:142-145 | Returns exactly the owner's rows, as a permutation of them, sorted by `minted_at` descending, with as many rows as `getCount` |
| Tables.GetByTokenId | backend/src/services/database.js:147-150 | Finds a row exactly when some row has that token id, and the row it returns is one of them |
| Tables.CreateSession | backend/src/services/database.js:160-171 | Sets `expires_at = now + ttl`, with a default ttl of 3600. On an existing id it replaces only the owner, the expiry and `created_at`, and keeps the wallet and data. Other rows are unchanged |
| Tables.GetSession | backend/src/services/database.js:173-179 | Returns the row exactly while `expires_at > now` |
| Tables.UpdateSessionWallet | backend/src/services/database.js:181-188 | Sets the wallet of that row only, expired or not |
| Tables.UpdateSessionData | backend/src/services/database.js:190-197 | Sets the data of that row only, expired or not |
| Tables.DeleteSession | backend/src/services/database.js:199-202 | Removes exactly that row, expired or not |
| Tables.CleanupSessions | backend/src/services/database.js:204-207 | Deletes exactly the rows with `expires_at < now` and keeps the others unchanged |
| Tables.CleanupKeepsLiveSessions | backend/src/services/database.js:173-207 | A cleanup never removes a row that `get` returns at that time or later, and cleanup is idempotent |
| Tables.ExpiryBoundary | backend/src/services/database.js:173-207 | A row whose `expires_at` equals `now` is not returned by `get` and not deleted by `cleanup` |
| Tables.SessionLifetime | backend/src/services/database.js:160-179 | A session created with `ttl` is readable exactly before `now + ttl` |
| Tables.UpsertKeepsAgreement | backend/src/services/database.js:76-85 | An upsert keeps every user's `nfts_minted` equal to its number of NFT rows |
| Tables.UpdateWalletKeepsAgreement | backend/src/services/database.js:92-99 | A wallet update keeps counters and rows in agreement |
| Tables.RecordMintKeepsAgreement | backend/src/handlers/webappHandler.js:55-58 | An increment together with the matching row append keeps counters and rows in agreement |
| Tables.IncrementAloneBreaksAgreement | backend/src/handlers/webappHandler.js:55-58 | An increment without an appended row breaks the agreement |
| Db.Database.constructor | backend/src/services/database.js:22-71 | A new file starts with three empty tables |
| Db.Database.CreateUser | backend/src/services/database.js:76-85 | Leaves the store equal to `UpsertUser` of the old one |
| Db.Database.UpdateWallet | backend/src/services/database.js:92-99 | Leaves the store equal to `UpdateUserWallet` of the old one |
| Db.Database.IncrementMintCount | backend/src/services/database.js:101-110 | Leaves the store equal to `IncrementMintCount` of the old one |
| Db.Database.CreateNft | backend/src/services/database.js:134-140 | Either appends exactly one row, with an id no earlier row has, and advances AUTOINCREMENT; or reports the NOT NULL violation and changes nothing. Ids stay increasing |
| Db.Database.CreateSession | backend/src/services/database.js:160-171 | Leaves the store equal to `CreateSession` of the old one |
| Db.Database.UpdateSessionWallet | backend/src/services/database.js:181-188 | Leaves the store equal to `UpdateSessionWallet` of the old one |
| Db.Database.UpdateSessionData | backend/src/services/database.js:190-197 | Leaves the store equal to `UpdateSessionData` of the old one |
| Db.Database.DeleteSession | backend/src/services/database.js:199-202 | Leaves the store equal to `DeleteSession` of the old one |
| Db.Database.CleanupSessions | backend/src/services/database.js:204-207 | Leaves the store equal to `CleanupSessions` of the old one |
| Migrations.TableInfo | backend/src/services/migrations.js:33 | `PRAGMA table_info` reports the table's columns in order, and none for an absent table |
| Migrations.CreateTableAs | backend/src/services/migrations.js:49-50 | `CREATE ... AS SELECT` fails exactly when the target exists or the source is missing, and then changes nothing. Otherwise it adds a row-for-row copy and leaves every other table unchanged |
| Migrations.DropTable | backend/src/services/migrations.js:53-54 | Removes exactly that table and the indexes on it. Without `IF EXISTS` it fails on a missing table |
| Migrations.WithCell | backend/src/services/migrations.js:63 | Every row gains the new cell, and the number of rows stays the same |
| Migrations.AddColumn | backend/src/services/migrations.js:63-67 | `ADD COLUMN` appends the column and gives every existing row the default in it, and the rows keep their other values. It fails on a missing table or an existing column |
| Migrations.CreateIndexIfNotExists | backend/src/services/migrations.js:64 | Does nothing when the name exists. Otherwise it succeeds exactly when the table and column exist and a unique index finds no duplicate non-NULL value |
| Migrations.FreshNullColumnHasNoDuplicate | backend/src/services/migrations.js:63-64 | A freshly added column of NULLs never violates the unique non-NULL index |
| Migrations.LegacyBranch | backend/src/services/migrations.js:44-56 | The legacy statements create no table but the two backups. When they run through, `users` and `nfts` are gone and their copies sit under the backup names |
| Migrations.AddFarcasterFid | backend/src/services/migrations.js:62-65 | Adding `farcaster_fid` and its index keeps the version rows and the set of tables, and changes no table other than `users` |
| Migrations.UsersSteps | backend/src/services/migrations.js:61-68 | The `users` statements neither add nor remove a table, and change no table other than `users` |
| Migrations.NftsStep | backend/src/services/migrations.js:71-83 | Only `nfts` can disappear, and only with a copy left in `nfts_backup`. Every other table, and every index not on `nfts`, stays |
| Migrations.PartialBranch | backend/src/services/migrations.js:58-84 | At most `nfts_backup` appears, and no table other than `users` and `nfts` changes |
| Migrations.MigrateSteps | backend/src/services/migrations.js:31-87 | The try block never changes `schema_version` and creates no table but the two backups |
| Migrations.AfterMigrateToV1 | backend/src/services/migrations.js:28-92 | The migration never changes `schema_version`; errors are caught and the statements that ran before them stay |
| Migrations.EnsureVersionTable | backend/src/services/migrations.js:100-104 | Creates `schema_version` only when it is absent, with no rows |
| Migrations.StoredVersion | backend/src/services/migrations.js:106-107 | The version read is 0 or a stored row. It is 0 without the table or without a row, and the row itself when exactly one is stored |
| Migrations.VersionStamp | backend/src/services/migrations.js:116-119 | Fails exactly when `schema_version` is missing. Otherwise it leaves exactly one row, holding `v` |
| Migrations.AfterRunMigrations | backend/src/services/migrations.js:9-23 | Afterwards `schema_version` holds exactly the row 1. Tables and indexes come out of `migrateToV1` when the version was below 1, else they are unchanged |
| Migrations.VersionOfUnstampedFile | backend/src/services/migrations.js:97-111 | With the table absent or empty, the version read is 0 and the table exists afterwards |
| Migrations.RunMigrationsIdempotent | backend/src/services/migrations.js:9-23 | A second `runMigrations` changes nothing |
| Migrations.FreshFileUntouched | backend/src/services/migrations.js:33-38 | Without `users` nothing is created, altered or dropped |
| Migrations.CurrentShapeUntouched | backend/src/services/migrations.js:40-87 | A `users` table with `id`, `farcaster_fid` and `platform` leaves the file unchanged, and `nfts` is not inspected |
| Migrations.NoDropWithoutBackup | backend/src/services/migrations.js:44-83 | A table disappears only when it is `users` or `nfts` and a row-for-row copy sits under its backup name |
| Migrations.LegacyUsersBackupFails | backend/src/services/migrations.js:44-49 | Legacy branch with `users_backup` already present: the first backup fails, the error is caught and the file is unchanged |
| Migrations.LegacyNftsBackupFails | backend/src/services/migrations.js:44-50 | Legacy branch where the `nfts` backup fails (no `nfts`, or `nfts_backup` present): `users_backup` stays behind as a copy and nothing is dropped |
| Migrations.LegacyBranchEffect | backend/src/services/migrations.js:44-56 | Legacy branch with both backups made: the tables are exactly the old ones minus `users` and `nfts`, plus row-for-row copies under the backup names. The indexes on the two dropped tables go, and every other index is kept |
| Migrations.AddFarcasterFidEffect | backend/src/services/migrations.js:62-65 | On a `users` table without it, `farcaster_fid` and its unique index always go in |
| Migrations.UsersStepsEffect | backend/src/services/migrations.js:61-68 | The `users` statements cannot fail. They append exactly the missing columns, old rows keep their values, and no other table changes |
| Migrations.PartialUsersEffect | backend/src/services/migrations.js:58-84 | Partial branch, as `migrateToV1` leaves it: exactly the missing columns are appended, in source order. Old rows keep their values and read NULL / 'telegram' in the new columns. A new `farcaster_fid` gets the unique index over non-NULL values |
| Migrations.NftsStepKeepsUsers | backend/src/services/migrations.js:71-83 | The `nfts` step leaves `users` and its farcaster index alone |
| Migrations.PartialKeepsOtherTables | backend/src/services/migrations.js:58-84 | When `users` has `id`, every table other than `users` and `nfts` is unchanged, and `nfts` disappears only with a copy left in `nfts_backup` |
| Migrations.PartialNftsEffect | backend/src/services/migrations.js:71-83 | `nfts` without `owner_user_id` is backed up and dropped (untouched, with no backup, when the copy fails). Otherwise, without `platform`, it gains `platform = 'telegram'` in every existing row; otherwise it is untouched. That other tables stay is `Migrations.PartialKeepsOtherTables` |
| Migrations.CreateTables | backend/src/services/database.js:22-71 | Creates each absent table empty with the legacy columns and keeps existing tables unchanged; the indexes never alter a table |
| Migrations.CreateIndexChain | backend/src/services/database.js:66-71 | The index statements leave the tables unchanged |
| Migrations.CreateTablesOnNewFile | backend/src/services/database.js:22-71 | On a new file it succeeds with exactly the three legacy tables and four indexes |
| Migrations.LegacyUsersLackId | backend/src/services/database.js:25-34 | No column `createTables` gives `users` is named `id` |
| Migrations.MigrateThreeLegacyTables | backend/src/services/migrations.js:44-56 | A file holding just `users` (without `id`), `nfts` and `sessions` migrates to exactly `sessions` plus the two backups, each holding the old contents |
| Migrations.CreatedSchemaIsLegacy | backend/src/services/migrations.js:40-56 | What `createTables` builds lacks `id`, so it is migrated as old. The next `createTables` rebuilds the same legacy `users` |
| Migrations.Connection.ExecCreateTableAs | backend/src/services/migrations.js:49 | Leaves the file as `CreateTableAs` says, and reports an error exactly when it halts |
| Migrations.Connection.ExecDropTable | backend/src/services/migrations.js:53 | Leaves the file as `DropTable` says, and reports an error exactly when it halts |
| Migrations.Connection.ExecAddColumn | backend/src/services/migrations.js:63 | Leaves the file as `AddColumn` says, and reports an error exactly when it halts |
| Migrations.Connection.ExecCreateIndexIfNotExists | backend/src/services/migrations.js:64 | Leaves the file as `CreateIndexIfNotExists` says, and reports an error exactly when it halts |
| Migrations.Connection.MigrateLegacy | backend/src/services/migrations.js:44-56 | The four statements up to the first error |
| Migrations.Connection.MigratePartial | backend/src/services/migrations.js:58-84 | The partial-branch statements up to the first error |
| Migrations.Connection.MigrateNfts | backend/src/services/migrations.js:71-83 | The `nfts` statements up to the first error |
| Migrations.Connection.MigrateToV1 | backend/src/services/migrations.js:28-92 | Leaves the file equal to `AfterMigrateToV1` of the old one |
| Migrations.Connection.GetDatabaseVersion | backend/src/services/migrations.js:97-111 | Creates the table if needed and returns the first version row, or 0 |
| Migrations.Connection.SetDatabaseVersion | backend/src/services/migrations.js:116-119 | DELETE then INSERT, as `VersionStamp` says |
| Migrations.Connection.RunMigrations | backend/src/services/migrations.js:9-23 | Leaves the file equal to `AfterRunMigrations`, with `schema_version` holding exactly the row 1 |
| WebAppHandler.MintErrorMessage | backend/src/handlers/webappHandler.js:98-106 | The text is always `'Failed to mint NFT. '` plus a suffix. It is the rejection text when 'rejected' occurs anywhere in the error; else the funds text when 'insufficient funds' occurs; else the retry text |
| WebAppHandler.MintError | backend/src/handlers/webappHandler.js:95-109 | The handler throws exactly when `error` is missing (`includes` of undefined). Otherwise it sends the failure reply with the text of `MintErrorMessage` |
| WebAppHandler.RejectedTakesPriority | backend/src/handlers/webappHandler.js:100-103 | 'rejected' wins even when 'insufficient funds' occurs too |
| WebAppHandler.MintSuccess | backend/src/handlers/webappHandler.js:44-68 | Sessions and the set of users never change. A success appends exactly one row, owned by the sender, who has a user row. A throw leaves the NFT rows as they were |
| WebAppHandler.MintSuccessWithoutUser | backend/src/handlers/webappHandler.js:49-50 | A sender without a row throws before any write |
| WebAppHandler.MintSuccessEffect | backend/src/handlers/webappHandler.js:44-68 | The sender's row changes only in `wallet_address` (now the reported one), `nfts_minted` (up by exactly 1), `last_mint_at = now` and `updated_at = now`. Other users and the sessions are unchanged. When all NOT NULL fields are present, exactly one row with the reported fields, owned by the sender, is appended and the success reply is sent. Otherwise no row is appended and the handler throws |
| WebAppHandler.MintSuccessAgreement | backend/src/handlers/webappHandler.js:55-58 | From agreeing counts, counts and rows still agree afterwards if and only if every NOT NULL field was present |
| WebAppHandler.WalletConnected | backend/src/handlers/webappHandler.js:73-90 | No user, session or NFT row is added or removed. The handler throws exactly when the wallet is missing |
| WebAppHandler.ConnectedAddressText | backend/src/handlers/webappHandler.js:85 | The shown address equals `shortenAddress` of the wallet for a non-empty wallet, and is '...' for '' |
| WebAppHandler.WalletConnectedEffect | backend/src/handlers/webappHandler.js:73-90 | The sender's row changes only in `wallet_address` and `updated_at = now`. The session's row changes only in its wallet, and only for a truthy `sessionId`. No other row and no NFT changes. For a non-empty wallet the reply shows `shortenAddress(wallet)`, for '' it shows '...'. A missing wallet throws after the writes |
| WebAppHandler.WebAppDataSpec | backend/src/handlers/webappHandler.js:8-39 | Nothing is sent exactly for a parsed message of unknown `type`, and then nothing changes. Any message keeps the sets of users and sessions and adds at most one NFT row, owned by the sender, who has a user row |
| WebAppHandler.OnlyKnownKindsWrite | backend/src/handlers/webappHandler.js:8-39 | Unparseable data or an unknown `type` changes no table; unknown types send nothing and unparseable data sends the error reply |
| WebAppHandler.HandleMintSuccess | backend/src/handlers/webappHandler.js:44-68 | Its statements leave the store and reply of `MintSuccess` |
| WebAppHandler.HandleWalletConnected | backend/src/handlers/webappHandler.js:73-90 | Its statements leave the store and reply of `WalletConnected` |
| WebAppHandler.HandleWebAppData | backend/src/handlers/webappHandler.js:8-39 | The dispatch leaves the store and reply of `WebAppDataSpec` |
| MintCommand.MintCommandGate | backend/src/commands/mint.js:13-34 | The upsert runs first, so the gate never sees a missing row. `max_limit` and `cooldown` reply and create no session. Otherwise exactly one session, owned by the sender and expiring in 3600 s, is created and the link is sent. `nfts` never changes |
| MintCommand.MintCommandSpec | backend/src/commands/mint.js:8-48 | The sender always has a user row afterwards and the NFTs never change. The reply is the cap message, the cooldown message or the link. Only with the link was a session, owned by the sender, added |
| MintCommand.NewUserGetsLink | backend/src/commands/mint.js:15-43 | A first-time sender always gets the webapp link |
| MintCommand.WebAppLink | backend/src/commands/mint.js:37 | The link is the URL, `?session=`, the session id and `&telegramId=`, followed by decimal text that parses back as the sender's id |
| MintCommand.LinkCarriesTelegramId | backend/src/commands/mint.js:37 | With the URL and session id fixed, two senders get the same link exactly when they are the same id |
| MintCommand.HandleMintCommand | backend/src/commands/mint.js:8-48 | Its statements leave the store and reply of `MintCommandSpec` |
| JsString.Includes | backend/src/handlers/webappHandler.js:100-102 | `includes` finds the empty string everywhere and never finds a string longer than the one searched |
| JsString.IncludesIff | backend/src/handlers/webappHandler.js:100-102 | `includes` is true if and only if the substring occurs at some position |
| JsString.NatToStringRoundTrip | backend/src/commands/mint.js:37 | The decimal text of a number reads back as that number |
| JsString.IntToStringRoundTrip | backend/src/commands/mint.js:37 | As above, for negative numbers too |
| JsString.Slice | shared/src/index.js:40 | `slice(start, end)` never returns more than the string. Case by case over where each index lies (before the string, counted from its end, inside, or past it): a negative index counts back from the end, an index before the start reads as 0 and one past the end as the length, and an end not after the start gives '' |
| Shared.ShortenAddress | shared/src/index.js:38-41 | A falsy address gives ''. Otherwise, for `chars >= 0`, the result is the first `chars + 2` characters, '...', and the last `chars` characters; the whole address is the tail when `chars` is 0 (`slice(-0)`) or the address is no longer than `chars` |
| Shared.DefaultShortenLength | shared/src/index.js:38-40 | With the default of 4, a 42-character address gives `a[..6] + '...' + a[38..]`, 13 characters |

## Left out

- Front ends. The React webapp and Farcaster mini-app, their wallet hooks, `fetch` and `postMessage` are UI code outside this layer.
- `farcasterHandler.js` is not part of this model. It calls store functions (`createFarcaster`, `getByFarcasterFid`, a 7-argument `nftDB.create`, …) that the store shown here does not define.
- Blockchain and IPFS clients, bot plumbing (`/start`, `/balance`, `/collection`, callbacks, the HTTP endpoints) and the contract scripts. They are network or chat I/O, so they are out of scope.
- The hourly `setInterval` sweep (backend/src/services/database.js:211-213) is a timer. `Db.Database.CleanupSessions` is invoked explicitly instead.
- The WAL pragma and the directory creation in `initDatabase` are file-system setup.
- Foreign keys are left out. better-sqlite3 builds SQLite with foreign-key enforcement on, so the `FOREIGN KEY ... REFERENCES users (telegram_id)` clauses (backend/src/services/database.js:48, backend/src/services/database.js:61) are live. The model ignores them.
- Migrations.LegacyBranch, Migrations.LegacyBranchEffect, Migrations.MigrateThreeLegacyTables: with foreign keys enforced, the legacy branch's `DROP TABLE IF EXISTS users` fails while a `sessions` row references a `users` row. The catch in `migrateToV1` swallows that error, so `users` stays, both backups exist and `nfts` is already gone. The model drops `users` in every case, so these contracts hold only for a file whose `sessions` rows reference no user.
- Db.Database.CreateNft, Db.Database.CreateSession: the store accepts a row whose owner has no user row, where SQLite refuses it. The handlers never insert such a row: `WebAppHandler.MintSuccess` and `MintCommand.MintCommandSpec` state that the owner has a user row.
- The REAL `total_spent` column is never read or written, so the row datatype omits it.
- The clock, `uuidv4` and `CONFIG.WEBAPP_URL` are parameters.
- `formatTimestamp` is locale-dependent date formatting.
- `bot.sendMessage` failures and message texts other than the computed ones are out of scope. Replies are constructors, the `MESSAGES` texts are not spelled out, and a send that throws is not modelled.
- `JSON.parse` is not modelled. The dispatcher receives data that is already decoded, or `Unparseable`.
- `sessionDB.updateData` takes the already serialised text. The `JSON.stringify` step is not modelled.
- A value that is absent (an omitted payload field, a sender without a Telegram username) is bound as SQL NULL, exactly like an explicit `null`. How the driver binds `undefined` is not part of the code. A driver that rejects `undefined` would throw at that statement, which these members do not capture:
- MintCommand.MintCommandSpec, MintCommand.NewUserGetsLink: for a sender without a username, `userDB.create` (backend/src/commands/mint.js:15) would throw, the catch would send MESSAGES.ERROR and nothing would be written. The model upserts the row with a NULL username and goes on to the gate and the link.
- WebAppHandler.MintSuccess, WebAppHandler.MintSuccessEffect, WebAppHandler.MintSuccessAgreement: an omitted `walletAddress` would throw at `userDB.updateWallet` (backend/src/handlers/webappHandler.js:51), before the increment. An omitted `blockNumber` would throw at `nftDB.create` after the increment. The model writes NULL in both cases.
- WebAppHandler.WalletConnected, WebAppHandler.WalletConnectedEffect: an omitted `walletAddress` would throw before any write. The model writes the NULL wallet and then throws at the reply.
- Shared.ShortenAddress: the contract describes the truthy case for `chars >= 0` only. A negative count, which none of the modelled code passes, is not described.
- Tables.GetByTokenId: `SELECT ... WHERE token_id = ?` with no ORDER BY may return any matching row. The model returns the earliest, and its contract promises only some matching row.
- Tables.SortByMintedDesc: rows minted in the same second keep row order. SQLite leaves that order unspecified.
- Migrations.Connection.GetDatabaseVersion: the `catch` that returns 0 on an engine error (a corrupt or differently-shaped `schema_version`) is not modelled. The schema-level model has no such error at that point.
- At the schema level, a column is just its name. Types, NOT NULL, defaults of later INSERTs and primary keys are out of scope, and the `nfts`/`users` tables of the schema model are not linked to the row-typed `Db.Database`.
- Triggers and views are not modelled; `DROP TABLE` removes only the table and its indexes.
- `schema_version` rows are kept in insertion order. SQLite returns them in ascending `version` (rowid) order; these agree whenever the table holds at most one row.
- Console logging is not modelled.
- JavaScript strings are sequences of UTF-16 code units, while a Dafny `char` is a Unicode scalar value. `slice` on text outside the Basic Multilingual Plane counts differently.
- JavaScript numbers are doubles, and `${telegramId}` switches to exponent notation from 1e21. The model renders every integer in plain decimal.
- SQLite integers are 64-bit. The model's are unbounded, so an overflowing counter or id is not modelled.
- SQLite compares column names case-insensitively. `Migrations.TableInfo` and `Migrations.AddColumn` compare them exactly.
