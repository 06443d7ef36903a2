# Telegram login and session store, modelled in Dafny

This project models the stateful core of an escrow bot's Telegram account login. The bot signs in to a human Telegram account through a three-step challenge: send a code, verify the code, and optionally verify a second-factor password. It keeps the resulting session string in a remote table keyed by phone number. Three pieces of logic are modelled:

- **Session store** (`api/database.py`): `save_telegram_session` is an upsert by phone with a check-then-update-or-insert. `get_telegram_session` looks a row up by phone, or returns the most recently updated row when no phone is given. `delete_telegram_session` removes the phone's rows. The same remote client also serves the `config` key/value table (`get_config`, `update_config`) and the `statistics` table (`get_statistics`). Without a configured client every operation returns a fixed default. `api/telegram_session_functions.py:4-65` is a line-for-line copy of `api/database.py:179-240`, so one model covers both files. The table below cites each file for the properties it states.
- **Credential cache** (`config.py`): `get_api_id`, `get_api_hash` and `get_phone_number` each read the remote `config` table first and fall back to the environment. Each memoises its answer in a module-level dict, which `clear_tg_creds_cache` empties. `api_id` goes through Python's `int()`, and a value that does not parse is cached as 0.
- **Login state machine** (`api/telegram_auth.py`): a `TelegramAuth` instance keeps `client`, `phone` and `phone_code_hash` in its fields across `send_code`, `verify_code` and `verify_password`. `get_session_info` checks a stored session.

Modules: `Common` (shared value types), `PyInt` (Python's `int()` on text, and `str()`), `Database` (session, config and statistics tables), `Credentials` (the cache) and `Auth` (the login flow).

How the outside world is abstracted:
- The remote tables are sequences of rows in a `Database` object. `connected` says whether the module-level Supabase client exists.
- A `fault` argument says that a remote call raised. The source catches every such exception and returns its default. The model assumes that a call which raises has not changed the remote table, so a fault changes no table. A write that lands before the call raises is not modelled (see "## Left out").
- The order of a sequence of rows stands for the order in which a query returns them. The queries at `api/database.py:53`, `80`, `196` and `218` ask for no order, so which row is "first" and which statistics row comes "later" is the order the database happens to return.
- The config table that `config.py` fetches with its own client is an `Option<seq<KeyValue>>` argument. `None` means building the client or running the query raised.
- The environment is a `map<string, string>` argument.
- The `config` table is taken to have `key` as its primary key, so that `upsert` on an existing key rewrites that row instead of appending one. `api/database.py:91` relies on this, but the code declares no such schema. `Database.UpsertConfig` and `Database.UpsertThenLookup` depend on it.
- `datetime.now()` reads a counter, and every reading advances it.
- Each reply of the Telethon client is a datatype argument: building and connecting the client (building can raise too, and then no client is stored), `send_code_request`, `sign_in` followed by `get_me`/`disconnect`, password sign-in, and `is_user_authorized`.

Behaviour of the code worth noting:
- The code keeps the client in instance memory between calls (`api/telegram_auth.py:14-16`). It does not return serialised transient state to the caller.
- Missing credentials come back as `0`/`''`, not as an error (`config.py:43-60`).
- Rate limits and expired codes are not told apart. They reach the caller as the generic `str(e)` error, and only an invalid code has its own message.
- An inserted row takes `updated_at` and `created_at` from two separate clock readings (`api/database.py:192`, `203`), so the model does not claim they are equal.
- `TelegramAuth` reads `API_ID`/`API_HASH` straight from the environment, with the default id `'34829504'`. It does not use the credential cache.
- The session table has no visible uniqueness constraint on `phone`, so `update(...).eq('phone', …)` and `delete().eq('phone', …)` act on every matching row. The lemmas show that a save never adds a second row for a phone that already has one.

## Model

| member | source | states |
|---|---|---|
| `Common.Or` | config.py:43 | Python's `a or b`: the first operand when it is truthy, otherwise the second |
| `Common.GetEnv` | api/telegram_auth.py:12-13 | `os.getenv(name, default)`: the environment value when the name is set, otherwise the default |
| `PyInt.ParseInt` | config.py:44-47 | `int()` on text: accepted text is non-empty once stripped of ASCII whitespace and ends in a digit; a negative result needs a leading `-`; blank text is rejected |
| `PyInt.Show` | config.py:44-47 | `str(n)`: `-` exactly for a negative number, then decimal digits with no leading zero, `"0"` exactly for 0 |
| `PyInt.ParseShow` | config.py:44-47 | `int(str(n)) == n` for every integer: `int()` reads back the decimal text of any id |
| `PyInt.NonNumericRejected` | config.py:44-47 | text with a character that is not whitespace, a sign, a digit or `_` makes `int()` fail |
| `Database.SessionDataOf` | api/database.py:185-193 | the row data of a save: session string, phone and stamp as given; identity columns from `user_data`, all four null when `user_data` is None |
| `Database.Find` | api/database.py:217-225 | lookup by phone: None exactly when no row has the phone, otherwise a row of the table with that phone |
| `Database.PhoneIndex` | api/database.py:218-224 | the row `data[0]` picks is the first row for the phone in the order the query returns; no earlier row has it |
| `Database.Latest` | api/database.py:219-225 | lookup without a phone: None exactly when the table is empty, otherwise a table row whose `updated_at` is at least every row's |
| `Database.UpdateWhere` | api/database.py:198-200 | update by phone: same length; each row with the phone rewritten with the new data and its `created_at` kept; every other row unchanged |
| `Database.DeleteWhere` | api/database.py:236 | delete by phone: no row with the phone is left, every other row is kept, and the table is unchanged when the phone is absent |
| `Database.DeleteWhereCounts` | api/database.py:236 | a delete keeps every row of another phone exactly as many times as it occurred, and keeps no row of the phone |
| `Database.Updated` | api/database.py:198-200 | the row `update(data)` leaves: every written column carries the new data and `created_at` is kept |
| `Database.Inserted` | api/database.py:201-204 | the row `insert(data)` adds: every written column carries the data, with the given `created_at` |
| `Database.SaveRows` | api/database.py:196-204 | the table after a save: one row longer exactly when the phone had no row, otherwise the same length; every existing row keeps its phone and `created_at` |
| `Database.SaveUpdatesInPlace` | api/database.py:196-200 | saving an existing phone adds no row, keeps every row's phone and `created_at`, and keeps the phone's row count |
| `Database.SaveInsertsOne` | api/database.py:201-204 | saving an absent phone appends exactly one row: the phone then has exactly one row, carrying the written data and the new `created_at` |
| `Database.SaveThenFind` | api/database.py:185-224 | last write wins: after a save, the lookup by that phone returns a row carrying exactly what the save wrote |
| `Database.SaveOtherPhone` | api/telegram_session_functions.py:21-29 | a save leaves the lookup of every other phone unchanged |
| `Database.SaveThenLatest` | api/database.py:192-221 | a save stamped later than every row is what the lookup without a phone returns |
| `Database.SaveKeepsUnique` | api/telegram_session_functions.py:20-29 | a save keeps the table free of duplicate phones |
| `Database.DeleteOtherPhone` | api/telegram_session_functions.py:55-62 | a delete leaves the lookup of every other phone unchanged |
| `Database.DeleteIdempotent` | api/telegram_session_functions.py:61-62 | deleting twice is the same as deleting once |
| `Database.SaveFacts` | api/telegram_session_functions.py:10-29 | after a save every stamp is at most the new one; the phone's lookup and the latest row both carry the written data; other phones are unaffected |
| `Database.KeyIndex` | api/database.py:80-81 | the row `data[0]` picks in the config table: the first row with the key, no earlier row having it, or past the end when no row has it |
| `Database.Lookup` | api/database.py:80-81 | config lookup: None exactly when no row has the key, otherwise the value of the first row with the key |
| `Database.UpsertConfig` | api/database.py:91 | the table after an upsert: one row longer exactly when the key was absent; every row is either an old row at its place or the written key/value |
| `Database.UpsertThenLookup` | api/database.py:91 | after `update_config(key, value)` the key reads back `value`, and keys stay unique |
| `Database.UpsertOtherKey` | api/database.py:86-92 | an upsert leaves every other key's value unchanged |
| `Database.StatsOf` | api/database.py:54-56 | every entry of the statistics dict is a row of the table |
| `Database.StatsOfKeys` | api/database.py:54-56 | the statistics dict has a key exactly when some row carries it |
| `Database.StatsOfLastWins` | api/database.py:55-56 | each key maps to the value of its last row in the returned order: later rows overwrite earlier ones |
| `Database.Database.constructor` | api/database.py:10-20 | the store starts with the given tables and client flag, and the clock is after every stored stamp |
| `Database.Database.Now` | api/database.py:192 | `datetime.now()`: returns the clock's value and advances it, so a later reading is strictly later |
| `Database.Database.SaveSession` | api/database.py:179-209 | returns True exactly when a client exists and nothing raised; otherwise the table is unchanged, a fault being taken to raise before the write lands. On success the table is the upsert of the written data, the phone's lookup and the latest row carry that data, and other phones are unaffected. Only the sessions table and the clock change |
| `Database.Database.GetSession` | api/database.py:211-228 | None without a client or on a fault; with a non-empty phone, the first row for it; with None or `''`, a row with the greatest `updated_at`, or None when the table is empty |
| `Database.Database.DeleteSession` | api/database.py:230-240 | True exactly when a client exists and nothing raised, even when the phone had no row; afterwards the phone is not found and other phones are unaffected |
| `Database.Database.GetConfig` | api/database.py:75-84 | None without a client, on a fault or for a missing key; otherwise the value of the first row with the key |
| `Database.Database.UpdateConfig` | api/database.py:86-95 | True exactly when a client exists and nothing raised; then the key reads back the new value and other keys are unchanged |
| `Database.Database.GetStatistics` | api/database.py:47-60 | `{'total_deals': 0, 'disputes_resolved': 0}` without a client or on a fault; otherwise the loop builds the fold of the rows into a dict, later rows winning |
| `Database.SessionLifecycle` | api/telegram_session_functions.py:4-65 | two saves for one phone, then get by phone and get latest both return the second session string; a delete then makes the phone not found |
| `Database.OfflineStore` | api/database.py:179-240 | with no client, save and delete return False, get returns None, `get_config` returns None, `update_config` returns False, statistics are the defaults, and no table changes |
| `Credentials.FetchConfig` | config.py:28-38 | `_get_supabase_config`: the value of the first row with the key; `default` when no row matches or the fetch raised |
| `Credentials.ToInt` | config.py:44-47 | `int(val)` with 0 on error: an integer gives itself, text that `int()` reads as `n` gives `n`, rejected text and None give 0 |
| `Credentials.ResolveApiId` | config.py:43-47 | the id `get_api_id` caches on a miss, taken from the truthy remote value or else `API_ID`: text that `int()` reads as `n` gives `n`; a non-zero id is only ever that integer or the value of that text |
| `Credentials.ResolveApiHash` | config.py:52-54 | the hash: the remote value if truthy, else env `API_HASH`, else `''` |
| `Credentials.ResolvePhoneNumber` | config.py:58-60 | the phone number: the remote value if truthy, else env `PHONE_NUMBER`, else `''` |
| `Credentials.ApiIdFromRemote` | config.py:43-45 | a remote id stored as decimal text, or as a non-zero integer, is the id |
| `Credentials.ApiIdFromEnv` | config.py:43-47 | when the remote value is falsy, the decimal text of env `API_ID` is the id; without `API_ID` (default `'0'`), or with text `int()` rejects such as `''`, the id is 0 |
| `Credentials.ApiIdParsed` | config.py:43-47 | whenever the chosen text is read by `int()` as `n`, including padded, signed, zero-led or `_`-grouped text, the cached id is `n` |
| `Credentials.ApiIdUnparsable` | config.py:44-47 | whenever the chosen text is rejected by `int()`, the cached id is 0 |
| `Credentials.ApiIdStrayCharacter` | config.py:44-47 | chosen text holding a character that is not whitespace, a sign, a digit or `_` gives 0 |
| `Credentials.CredentialCache.constructor` | config.py:26 | the cache starts empty |
| `Credentials.CredentialCache.GetApiId` | config.py:40-48 | on a hit, returns the cached id and changes nothing, whatever the sources say; on a miss, caches and returns the resolved id and adds only that key |
| `Credentials.CredentialCache.GetApiHash` | config.py:50-54 | the same hit/miss behaviour for the hash, under its own key |
| `Credentials.CredentialCache.GetPhoneNumber` | config.py:56-60 | the same hit/miss behaviour for the phone number, under its own key |
| `Credentials.CredentialCache.Clear` | config.py:62-65 | the cache is empty afterwards |
| `Credentials.CacheLifecycle` | config.py:40-65 | on a fresh cache the first id sticks even when the sources change; the hash resolves on its own; after a clear the id is resolved again from the current sources |
| `Auth.TelegramAuth.constructor` | api/telegram_auth.py:11-16 | env credentials with default id `'34829504'`; `client`, `phone` and `phone_code_hash` all None |
| `Auth.TelegramAuth.SendCode` | api/telegram_auth.py:18-39 | when building the client raises, returns the error and changes no field; otherwise replaces the client; sets `phone` once connected and the hash once the code is sent; success with that hash exactly then, otherwise a failure result carrying the error |
| `Auth.TelegramAuth.VerifyCode` | api/telegram_auth.py:41-93 | builds a client only when there is none, and when building raises returns the error with every field as it was; once it has a client, records the given phone and hash. Sign-in success gives the session and `user_data` and disconnects; a password request gives `requires_password` and keeps the client; an invalid code gives its own message; any other fault gives the error |
| `Auth.TelegramAuth.VerifyPassword` | api/telegram_auth.py:95-133 | with no client, "Session expired. Please start over." and nothing changes; success gives the session and `user_data` and disconnects; failure gives the error; phone and hash are never touched |
| `Auth.TelegramAuth.GetSessionInfo` | api/telegram_auth.py:135-159 | the account exactly when connecting succeeded and the session is authorized; None when it is not authorized or anything raised |
| `Auth.LoginAfterRetry` | api/telegram_auth.py:84-88 | on a fresh instance: code sent, a wrong code gives the invalid-code message, and the right code then logs in with the platform's session and account |
| `Auth.LoginWithPassword` | api/telegram_auth.py:54-127 | code, then password required, a rejected password fails, and the accepted password logs in with the 2FA message |
| `Auth.BuildFailureExpires` | api/telegram_auth.py:20-102 | when building the client raises in both `send_code` and `verify_code`, no client is stored and `verify_password` reports an expired session |
| `Auth.PasswordWithoutCode` | api/telegram_auth.py:98-102 | `verify_password` on a fresh instance reports an expired session, whatever the platform would reply |

## Left out

- Building the Supabase client and the query-builder calls (`api/database.py:11-20`, `config.py:31-33`) belong to a foreign library. An in-memory table and a `connected` flag stand in for them.
- The Telethon network calls and `async`/`await` are I/O. Their outcomes are datatype arguments. The model does not restrict which replies a disconnected client may produce.
- Failures of `get_me()` or `disconnect()` after a sign-in are folded into the generic sign-in failure reply. If `disconnect()` raises, the model still marks the client as connected.
- `print` logging and the text of caught exceptions. Every `str(e)` is an arbitrary string carried by the reply.
- Wall-clock values and their ISO formatting: a counter replaces them, and each reading advances it by one, so two readings never tie.
- `Database.Database.SaveSession`, `Database.Database.DeleteSession`, `Database.Database.UpdateConfig`: a fault is taken to happen before any write lands. In the source, `execute()` can raise after the server has applied the update, insert, delete or upsert (`api/database.py:200`, `204`, `236`, `91`), for instance when the response is lost. The call then returns False with the table changed. The model's `!ok ==> table unchanged` holds only under this assumption.
- `Database.Database.SaveSession`: when a remote call raises, the model fixes the clock at one reading past its start, although the source may raise after either clock read.
- `PyInt.ParseInt`: on text holding any non-ASCII character, Python's `int()` also strips non-ASCII whitespace and accepts non-ASCII digits. The model treats those as parse failures.
- `PyInt.ParseInt`: Python 3.11 and later, and the 3.7.14, 3.8.14, 3.9.14 and 3.10.7 security releases, reject decimal text of more than 4300 digits by default (`sys.set_int_max_str_digits`). `get_api_id` then caches 0. The model has no digit limit and parses such text, because the limit depends on the interpreter version and its settings.
- `Database.SessionDataOf`: `user_data` is either None or a full five-key dict, as `verify_code` builds it. A dict with missing keys, where `.get` would give None for one column only, is not modelled. An empty dict is falsy and behaves like None.
- Table cells and config values are limited to None, strings and integers. Booleans, floats and JSON objects that a Supabase cell could hold are not modelled.
- `init_db`, `get_all_bot_users`, the editable-content and crypto-address operations (`api/database.py:22-45`, `62-73`, `97-176`). These are plain remote CRUD with database-assigned ids and no invariants of interest.
- `create_command.py` is a bot command handler: it sends UI replies and calls modules not present in the source (`telegram_group_manager`, `database.create_deal`). It is not part of this model.
- The legacy module constants and environment loading (`config.py:4-21`, `69-74`) are process bootstrap.
- No caller in the code saves the session after a successful login, so no member composes login and store. The login flow's methods modify only the `TelegramAuth` instance.
