# Browser Use API: key lifecycle and task store, in Dafny

This project models the two in-memory stores of the Browser Use API service
and proves properties of them.

- **API keys** (`src/api/security/api_key.py`). `APIKeyManager` keeps a dict
  from key text to a lifecycle record. The record holds created_at,
  expires_at, is_active, last_used and usage_count. The manager issues,
  validates, revokes and rotates keys, looks one up, and lists the active
  ones. `get_api_key` is the request gate: it rejects a key that fails
  validation with 403.
- **Tasks** (`src/api/api_service.py`). `tasks_store` is a dict from task id
  to record. `create_task` inserts a pending record. `execute_task` loads
  the configuration and runs the automation engine. It then writes
  `completed` with the transcribed history, or `failed` with the exception
  text, and closes the browser in its `finally` block. `get_task_result`
  and `list_tasks` read the store.

Files:

- `base.dfy`: module `Base`, with Option, Result and HttpError.
- `api_key.dfy`: module `ApiKey`. It holds the pure function for each key
  operation on a `map<string, KeyInfo>` and the class `APIKeyManager`. The
  class methods do the same updates step by step and are proved equal to
  those functions. It also holds the gate `GetApiKey`.
- `api_key_properties.dfy`: module `ApiKeyProperties`. It covers repeated
  validation and usage counts, idempotent revocation, and the expiry
  boundary.
- `task_text.dfy`: module `TaskText`. It holds the transcription of the
  engine's history into text, Python truthiness and `str()` of
  configuration values, and the recording, trace and history paths.
- `tasks.dfy`: module `Tasks`. It holds task records, the execute step as a
  function, the `finally` release, and the class `TaskStore`.
- `task_properties.dfy`: module `TaskProperties`. It covers separators in
  joined traces, splitting a trace back into its items, and the outcome of
  runs that fail.

Outside inputs are parameters:

- The clock is an integer `now`, in seconds, for API keys. For tasks it is
  the creation-time text.
- The random key suffix and the task uuid are parameters, each required to
  be new to its store.
- Configuration loading is a function `load` from the configuration source
  to a config dict or an exception text.
- The engine is a function `engine`. It answers either with the agent's
  history and id, or with the exception text and which engine resources
  had been bound when it was raised.
- `json.dumps` and `str()` on a dict are the two functions of `Encoders`.

Behaviour of the code worth knowing:

- **Expiry boundary.** Expiry is tested with `now > expires_at`, so a key
  still validates at its expiry instant. A key issued with 0 days expires
  at the clock reading taken when it was issued. In the code it therefore
  passes only if a later validation reads exactly the same clock value. The
  model counts `now` in whole seconds, so it stretches that instant to a
  whole second: a 0-day key validates at its issue second and fails one
  second later (`ZeroDayKeyBoundary`).
- **Release is not guaranteed on every path.** The `finally` block can
  fail to release resources:
  - If configuration loading raises, `config_dict` is unbound and the
    `finally` block itself raises.
  - If the context was never bound, testing `browser_context` raises before
    the browser is closed, so a browser that was created leaks
    (`Release`, `BrowserLeaksWhenContextFails`).
- **No terminal guard.** The code does not stop a second update of a task
  that has already finished (`NoTerminalGuard`). A task reaches its terminal state
  only once because `execute_task` is scheduled once per id.
- **No config overrides.** A task request carries only the task text, extra
  hints and a config file name, with no per-request configuration
  overrides. The record stores no resolved configuration.
- **No key check on task endpoints.** The task endpoints in `api_service.py`
  do not use `get_api_key`, so no task operation is guarded by an API key.

## Model

| member | source | states |
|---|---|---|
| `ApiKey.Issued` | src/api/security/api_key.py:13-26 | Adds exactly one entry, keyed `"bua_"` + suffix. The entry is active, has usage 0 and no last use, and is created at `now`. It expires at now + days*86400, and days is 30 when None is given. Every existing entry is unchanged and the store invariant is kept. |
| `ApiKey.Validated` | src/api/security/api_key.py:28-47 | Passes iff the key is present, active and now <= expires_at. A pass adds exactly 1 to usage_count and sets last_used = now. Failing on an expired key deactivates it and leaves its usage unchanged. An unknown or inactive key leaves the store equal. No other key changes. |
| `ApiKey.Revoked` | src/api/security/api_key.py:49-54 | Returns true iff the key exists. Afterwards the key is inactive, its other fields are kept, and it validates at no instant. An absent key leaves the store equal. No other entry changes. |
| `ApiKey.Rotated` | src/api/security/api_key.py:56-62 | Issues a key iff the old key validates. The new key differs from the old one, exactly one entry is added, the old key no longer validates and the new one does. The old key's usage counts that validation: its last use is now, and it ends inactive. The new entry is generate_key()'s default record: created now, expiring at now + 30*86400, active, unused. On failure no entry is added and the store changes only as a failed validation changes it. The old key's usage count, last use, creation and expiry are all unchanged, and an expired old key is deactivated. |
| `ApiKey.GetKeyInfo` | src/api/security/api_key.py:64-72 | Returns the stored record iff the key is present, and 404 "API key not found" otherwise. The store is not touched. |
| `ApiKey.ListActiveKeys` | src/api/security/api_key.py:74-79 | Lists exactly the keys that are active and have now <= expires_at, each with its stored record. |
| `ApiKey.APIKeyManager.constructor` | src/api/security/api_key.py:9-11 | Starts with an empty store. |
| `ApiKey.APIKeyManager.GenerateKey` | src/api/security/api_key.py:13-26 | The in-place insert. The key it returns and the new store are those of `Issued`, and the invariant holds. |
| `ApiKey.APIKeyManager.ValidateKey` | src/api/security/api_key.py:28-47 | The in-place check and update. The answer and the new store are those of `Validated`. |
| `ApiKey.APIKeyManager.RevokeKey` | src/api/security/api_key.py:49-54 | The in-place deactivation. The answer and the new store are those of `Revoked`. |
| `ApiKey.APIKeyManager.RotateKey` | src/api/security/api_key.py:56-62 | Calls validate, generate and revoke in sequence. The result and the new store are those of `Rotated`. |
| `ApiKey.GetApiKey` | src/api/security/api_key.py:87-94 | Returns the key iff it validates, and 403 "Invalid or expired API key" otherwise. The store changes as one validation changes it. |
| `ApiKeyProperties.UsageCountsSuccesses` | src/api/security/api_key.py:43-45 | Over any run of validations, usage_count grows by exactly the number that passed. Other keys are untouched. |
| `ApiKeyProperties.ActiveKeyPassesEachTime` | src/api/security/api_key.py:36-47 | An active key validated only at instants up to its expiry passes every time. It stays active and was last used at the last instant. |
| `ApiKeyProperties.FreshKeyUsageCount` | src/api/security/api_key.py:13-47 | A new key validated N times before expiry has usage_count N. |
| `ApiKeyProperties.RevokeIdempotent` | src/api/security/api_key.py:49-54 | Revoking twice gives the same answer and store as revoking once. |
| `ApiKeyProperties.ZeroDayKeyBoundary` | src/api/security/api_key.py:13-41 | A 0-day key validates at the instant it is issued and is rejected one second later. |
| `ApiKeyProperties.ExpiredKeyStaysRejected` | src/api/security/api_key.py:36-41 | Once a key has been found expired, no later validation passes, whatever the clock says. |
| `ApiKeyProperties.ListedIffValidates` | src/api/security/api_key.py:74-79 | A key is listed as active exactly when validating it at that instant would pass. |
| `TaskText.Transcript` | src/api/api_service.py:106-108 | A list becomes the "\n"-join of its item texts, with dicts JSON-encoded and other items `str()`-ed. An empty list gives "". A non-list value is `str()`-ed, so a dict there gets `str()`, not JSON. |
| `TaskText.FinalResultText` | src/api/api_service.py:105 | A dict is JSON-encoded. Anything else is its `str()` text. |
| `TaskText.RecordingPath` | src/api/api_service.py:109 | Gives save_recording_path when enable_recording is truthy, and None otherwise or when no recording path is set. |
| `TaskText.TraceFile` | src/api/api_service.py:110 | Gives the save_trace_path value as text (a string value unchanged), and None exactly when it is missing or None. |
| `TaskText.Truthy` | src/api/api_service.py:109 | Python truthiness as the `if` at line 109 uses it: None is false, a bool is itself, and a string is true iff non-empty. |
| `TaskText.Str` | src/api/api_service.py:111 | Python `str()` as the f-string at line 111 uses it: None gives "None", a bool gives "True" or "False", and a string is unchanged. For a bool it gives "True" iff truthy; for a string it is non-empty iff truthy. |
| `TaskText.KeepBrowserOpen` | src/api/api_service.py:120 | `bool(config.get('keep_browser_open', False))`: true iff the key is present and its value is truthy. |
| `TaskText.HistoryDir` | src/api/api_service.py:111 | Gives save_agent_history_path as text, or "tmp/agent_history" when the key is absent. |
| `TaskText.HistoryFile` | src/api/api_service.py:111 | The path is `<dir>/<agent id>.json`: it starts with the directory and "/", has the agent id in the middle and ends with ".json". |
| `Tasks.StatusName` | src/api/api_service.py:130 | The three statuses have the distinct texts pending, completed and failed. |
| `Tasks.PendingRecord` | src/api/api_service.py:129-139 | The record has status pending, the given created_at, and every result field None. |
| `Tasks.ConfigSourceOf` | src/api/api_service.py:47-50 | Picks the named config file iff a non-empty name is given, and the default configuration otherwise. |
| `Tasks.CompletedRecord` | src/api/api_service.py:103-112 | Status becomes completed. Every result field is rewritten from the history and the configuration. created_at is kept. |
| `Tasks.FailedRecord` | src/api/api_service.py:114-118 | Status becomes failed and errors becomes the exception text. The record differs from the old one in those two fields only. |
| `Tasks.Release` | src/api/api_service.py:119-124 | Unless keep_browser_open is truthy, closes the context and then the browser, each once, and only if both were bound. If config_dict was unbound, raises with nothing closed. If the context was unbound, raises with nothing closed. When kept open, closes nothing and raises nothing. |
| `Tasks.Executed` | src/api/api_service.py:44-124 | The status ends completed or failed. It is completed iff the configuration loaded and the engine finished. A failure writes only status and errors. A load failure records the loader's message and raises on config_dict in `finally`. An engine exception records its text, and the cleanup is `Release` of what was bound. A finished run writes `CompletedRecord`; its cleanup closes the context and then the browser unless keep_browser_open is set, in which case nothing is closed. created_at is kept. |
| `Tasks.View` | src/api/api_service.py:154-157 | The view carries the id, the status text and every stored result field unchanged. |
| `Tasks.Views` | src/api/api_service.py:161-164 | Gives one view per id, in the order of the ids. |
| `Tasks.TaskStore.constructor` | src/api/api_service.py:21 | Starts with an empty store. |
| `Tasks.TaskStore.CreateTask` | src/api/api_service.py:127-147 | Inserts a pending record under the new id and appends the id to the insertion order. No other record changes. Answers with the id, "pending" and the stored created_at. |
| `Tasks.TaskStore.ExecuteTask` | src/api/api_service.py:44-124 | Writes only the record of the task, and writes what `Executed` gives. The set of ids and their order are unchanged. The cleanup it reports is that of `Executed`. |
| `Tasks.TaskStore.GetTaskResult` | src/api/api_service.py:150-157 | Returns 404 "Task not found" iff the id is absent, and otherwise the view of the stored record. |
| `Tasks.TaskStore.ListTasks` | src/api/api_service.py:160-164 | Gives one view per stored record, in insertion order. Every stored id appears and no id appears twice. |
| `TaskProperties.JoinNewlines` | src/api/api_service.py:106-108 | A join of n >= 1 parts holds n - 1 separators plus the newlines inside the parts. |
| `TaskProperties.TranscriptSeparators` | src/api/api_service.py:106-108 | A list trace of n >= 1 items holds exactly n - 1 newlines iff no item's text contains a newline. |
| `TaskProperties.SplitJoin` | src/api/api_service.py:106-108 | Splitting a join at newlines gives back the parts when none contains a newline. |
| `TaskProperties.TranscriptRoundTrip` | src/api/api_service.py:106-108 | A list trace whose items hold no newline splits back into its item texts. |
| `TaskProperties.ConfigFailureLeavesResultsEmpty` | src/api/api_service.py:45-124 | From pending, a load failure leaves the task failed with the loader's message and every result field None. Nothing is closed and `finally` raises on config_dict. |
| `TaskProperties.StubbedRunScenario` | src/api/api_service.py:103-112 | An engine that finishes with a dict result and an empty error list gives status "completed", the dict's JSON as final_result, and errors "". |
| `TaskProperties.BrowserLeaksWhenContextFails` | src/api/api_service.py:119-124 | With only the browser bound and keep_browser_open false, `finally` raises on browser_context and closes nothing. |
| `TaskProperties.NoTerminalGuard` | src/api/api_service.py:103-118 | Running execute_task again on a completed record rewrites it, here to failed. |

## Left out

- ApiKey.Issued: requires the new key to be absent from the store. In the source a collision would silently overwrite the old entry; the random 32-byte suffix makes that negligible, so the model excludes it.
- ApiKey.APIKeyManager.GenerateKey: requires the same freshness as `Issued`.
- ApiKey.APIKeyManager.RotateKey: requires the same freshness as `Issued`.
- ApiKey.Rotated: requires the same freshness as `Issued`.
- Tasks.TaskStore.CreateTask: requires the new uuid to be absent from the store, for the same reason.
- Tasks.TaskStore.ExecuteTask: requires the task id to be stored already. Its only caller, create_task, stores it before scheduling. A missing id would raise KeyError inside the except block.
- Clock: each operation reads one `now`. The source reads the clock twice in generate_key and twice in validate_key, microseconds apart. list_active_keys reads it once per entry inside its comprehension, so entries are compared against slightly later instants; ListActiveKeys and ListedIffValidates use a single `now` for all entries.
- Format of random values: `secrets.token_urlsafe(32)` and `uuid.uuid4()` are any strings, not URL-safe base64 or UUID text.
- Time units: datetime arithmetic is integer seconds. An OverflowError on huge day counts is not modelled.
- ISO text: created_at for tasks is the clock's ISO text, passed in as given.
- Aliasing: list_active_keys and get_key_info return the stored dicts themselves, so later mutation would show through them. The model returns values.
- HTTP plumbing: FastAPI routing, pydantic model construction and the `X-API-Key` header scheme are not modelled. The header scheme's own 403 for a missing header is also left out. TaskResult dropping created_at is modelled, in `View`.
- Async scheduling: async/await and `BackgroundTasks` scheduling are not modelled. ExecuteTask is one sequential step, called separately after CreateTask. Concurrency and interleaving are not modelled.
- Engine construction (lines 52-100 of api_service.py) is not modelled: get_llm_model, CustomBrowser, new_context, CustomController, CustomAgent, AgentState and agent.run. It includes the window size lookup and `float(llm_temperature)`. All of it is reduced to the `engine` answer, which says what was bound when an exception was raised.
- Tasks.CompletedRecord: the encoders are total. A `json.dumps` that raises on a value it cannot serialise would send the task to failed; that path is not modelled.
- Tasks.Release: `close()` on the context or the browser is assumed not to raise.
- Path values: a configuration path value that is neither None nor a string is recorded as its `str()` text. Pydantic's validation of such a value when the record is read is not modelled.
- Config loading: `load_config_from_file` and `default_config` are the `load` parameter.
