# Subly in Dafny

Subly is a desktop app for tracking subscriptions. It stores subscriptions, expenses and
catalogs (categories, currencies, household members, payment methods and tags) in a local
SQLite database, and it can sync a JSON snapshot of everything to a cloud drive. This project
models the logic at the centre of that app and proves properties of the model.

**Cloud sync**
- The sync manager is a class that holds the persisted sync configuration and the observable
  sync status.
  - A remote snapshot counts as a pending update when it is newer than the last local change
    and was written by another device (last writer wins).
  - `syncing` guards against re-entry, and every completed pull or push resets it.
  - A sync never pushes over a pending remote update.
- Each provider adapter is a class over its cached and stored OAuth 2.0 tokens: Google Drive,
  Dropbox and OneDrive.
  - The authorization code is exchanged as in section 4.1.3 of RFC 6749.
  - Tokens are refreshed as in section 6 of RFC 6749.
  - Tokens count as expired against a clock that is passed in as a parameter.
- The WebDAV adapter normalises its server URL. A PROPFIND (section 9.1 of RFC 4918) counts
  as authenticated on 207 Multi-Status or 200.

**Import and export**
- CSV as in section 2 of RFC 4180: the hand-written quoted-field parser, the quoting done by
  the exporters, the import of rows as subscriptions, and date normalisation.
- `.subly` archives: custom `data:` icons (RFC 2397) are collected, numbered, replaced by
  archive paths, and restored from the archive.

**Persistence**
- The SQL script splitter.
- The row codecs: booleans as 0/1, tags as JSON.
- Config values.
- The delete cascade.
- The tag batches.
- Config encoding on load and save.
- The debounced sync trigger.
- Schema recovery for damaged data (`safeParseArray`, `migrateTags`, `validateAppData`).

**In-memory stores**
- Subscriptions, catalogs, expenses, settings, the currency converter's order, alerts and the
  confirm dialog.
- Each is a class whose methods change its fields as the store does.

**Services**
- Notification scheduling, classification and templates.
- Telegram reminders and HTML escaping.
- Billing calculations.
- Exchange-rate updates: an in-place array loop.
- Zod error messages.
- Storage fallbacks.
- The bundled-logo table.

Outside effects enter the model as values passed to the operations:
- every HTTP response (`Http<T>`: a status and body, or a network error);
- JSON parsing and Zod validation (functions from `Schema.Raw` to `Option`);
- the clock;
- random ids;
- what the user does in dialogs.

The Dafny modules follow the source files one to one. `Common` holds string and sequence
helpers, `Schema` the data model and `SyncTypes` the sync payloads.

## Model

| member | source | states |
|---|---|---|
| SyncTypes.RemoteMeta | src/services/sync/gdriveProvider.ts:140-143 | getRemoteMeta gives exactly the meta of the downloaded payload, nothing when nothing was downloaded, and passes a thrown error on |
| OAuth.Exchanged | src/services/sync/gdriveProvider.ts:62-87 | a code exchange yields tokens iff the response is OK; they hold the returned access and refresh tokens, and expiry = now + expires_in·1000 |
| OAuth.Refreshed | src/services/sync/gdriveProvider.ts:155-180 | a refresh succeeds iff there is a refresh token and the response is OK; the new access token is the returned one and the new expiry is now + expires_in·1000; without rotation the old refresh token is kept, with rotation the returned one replaces it only when present |
| OAuth.CheckAuth | src/services/sync/gdriveProvider.ts:39-47 | isAuthenticated: a cached token not yet expired answers true with no change; otherwise no stored token answers false and clears the cache, a stored token not yet expired (equal included) is loaded and answers true, and an expired one answers exactly whether the refresh succeeds, caching and storing the refreshed tokens or keeping the expired one cached |
| OAuth.DisconnectedIsUnauthenticated | src/services/sync/gdriveProvider.ts:39-47 | with no cached and no stored tokens the answer is false and nothing changes |
| OAuth.ExchangeThenAuthenticated | src/services/sync/gdriveProvider.ts:39-87 | after a successful exchange, any check before the expiry answers true without refreshing |
| OAuth.ColdStartLoadsStore | src/services/sync/gdriveProvider.ts:39-47 | with only stored tokens whose expiry is not before now (including equal), the check loads them and answers true |
| OAuth.ExpiredWithoutRefreshTokenFails | src/services/sync/gdriveProvider.ts:39-47 | an expired stored token without a refresh token answers false |
| OAuth.RefreshIsStable | src/services/sync/gdriveProvider.ts:155-180 | after a successful lazy refresh the cache equals the store and a second check at the same instant answers true with no change |
| GDriveAdapter.FileId | src/services/sync/gdriveProvider.ts:145-153 | findFileId: the id is found iff the lookup is OK and names a file; a network error is passed on as an exception |
| GDriveAdapter.RequestFor | src/services/sync/gdriveProvider.ts:94-124 | an existing non-empty file id is PATCHed at its URL without parents; otherwise a POST with parents ["appDataFolder"]; the body is the payload |
| GDriveAdapter.GDriveProvider.constructor | src/services/sync/gdriveProvider.ts:20-28 | credentials as given, no cached tokens, the stored tokens as found |
| GDriveAdapter.GDriveProvider.SetCredentials | src/services/sync/gdriveProvider.ts:30-33 | stores the client id and secret |
| GDriveAdapter.GDriveProvider.Authenticate | src/services/sync/gdriveProvider.ts:35-61 | true only when available (client id non-empty), and then exactly when the consent page was opened |
| GDriveAdapter.GDriveProvider.LoadTokens | src/services/sync/gdriveProvider.ts:190-196 | the cache takes the stored tokens |
| GDriveAdapter.GDriveProvider.SaveTokens | src/services/sync/gdriveProvider.ts:198-201 | the store takes the cached tokens when there are any |
| GDriveAdapter.GDriveProvider.RefreshAccessToken | src/services/sync/gdriveProvider.ts:155-180 | success iff there is a refresh token and the reply is OK; then the returned access token, the old refresh token and the expiry now + expires_in·1000 are cached and stored; on failure nothing changes |
| GDriveAdapter.GDriveProvider.IsAuthenticated | src/services/sync/gdriveProvider.ts:39-47 | answer and new token state are exactly CheckAuth's, without rotation |
| GDriveAdapter.GDriveProvider.HandleAuthCode | src/services/sync/gdriveProvider.ts:62-87 | success iff the response is OK; then the exchanged tokens are cached and stored; otherwise nothing changes |
| GDriveAdapter.GDriveProvider.Disconnect | src/services/sync/gdriveProvider.ts:89-92 | no cached and no stored tokens afterwards |
| GDriveAdapter.GDriveProvider.Upload | src/services/sync/gdriveProvider.ts:94-124 | "Not authenticated" when the check fails; otherwise the request RequestFor chooses is sent, and the upload succeeds iff it is OK; a non-OK status fails |
| GDriveAdapter.GDriveProvider.Download | src/services/sync/gdriveProvider.ts:126-138 | nothing when unauthenticated, without a file id, or on a non-OK reply; otherwise the payload received |
| DropboxAdapter.DropboxProvider.constructor | src/services/sync/dropboxProvider.ts:19-27 | credentials as given, no cached tokens, the stored tokens as found |
| DropboxAdapter.DropboxProvider.SetCredentials | src/services/sync/dropboxProvider.ts:29-32 | stores the app key and secret |
| DropboxAdapter.DropboxProvider.Authenticate | src/services/sync/dropboxProvider.ts:34-58 | true only when the app key is non-empty, and then exactly when the consent page was opened |
| DropboxAdapter.DropboxProvider.RefreshAccessToken | src/services/sync/dropboxProvider.ts:145-170 | false without a refresh token or on a failed reply, leaving tokens unchanged; on success the returned access token, the old refresh token and the expiry now + expires_in·1000 are cached and stored |
| DropboxAdapter.DropboxProvider.IsAuthenticated | src/services/sync/dropboxProvider.ts:38-44 | answer and new token state are exactly CheckAuth's |
| DropboxAdapter.DropboxProvider.HandleAuthCode | src/services/sync/dropboxProvider.ts:59-84 | success iff the response is OK; then both tokens are cached and stored; otherwise nothing changes |
| DropboxAdapter.DropboxProvider.Disconnect | src/services/sync/dropboxProvider.ts:86-99 | a revoke is attempted iff an access token is cached; tokens are cleared and the stored entry deleted whatever the revoke does |
| DropboxAdapter.DropboxProvider.Upload | src/services/sync/dropboxProvider.ts:101-120 | when authenticated, uploads to /Apps/Subly/subly-sync.json in overwrite mode without autorename; fails when unauthenticated or on non-OK |
| DropboxAdapter.DropboxProvider.Download | src/services/sync/dropboxProvider.ts:122-138 | never throws; the payload iff authenticated and the reply is OK |
| OneDriveAdapter.OneDriveProvider.constructor | src/services/sync/onedriveProvider.ts:19-21 | empty client id, no cached tokens, the stored tokens as found |
| OneDriveAdapter.OneDriveProvider.SetCredentials | src/services/sync/onedriveProvider.ts:24-26 | stores the client id |
| OneDriveAdapter.OneDriveProvider.Authenticate | src/services/sync/onedriveProvider.ts:28-56 | true only when the client id is non-empty, and then exactly when the consent page was opened |
| OneDriveAdapter.OneDriveProvider.RefreshAccessToken | src/services/sync/onedriveProvider.ts:133-162 | false without a refresh token or on a failed reply, leaving tokens unchanged; on success the returned access token and the expiry now + expires_in·1000 are cached and stored, and the refresh token is replaced only when the reply carries one |
| OneDriveAdapter.OneDriveProvider.IsAuthenticated | src/services/sync/onedriveProvider.ts:32-38 | answer and new token state are exactly CheckAuth's, with rotation |
| OneDriveAdapter.OneDriveProvider.HandleAuthCode | src/services/sync/onedriveProvider.ts:58-86 | success iff the response is OK; then both tokens are cached and stored; otherwise nothing changes |
| OneDriveAdapter.OneDriveProvider.Disconnect | src/services/sync/onedriveProvider.ts:88-91 | no cached and no stored tokens afterwards |
| OneDriveAdapter.OneDriveProvider.Upload | src/services/sync/onedriveProvider.ts:93-109 | when authenticated, PUTs to the special/approot path of subly-sync.json; fails when unauthenticated or on non-OK |
| OneDriveAdapter.OneDriveProvider.Download | src/services/sync/onedriveProvider.ts:111-126 | never throws; the payload iff authenticated and the reply is OK |
| WebDavAdapter.StripTrailingSlashes | src/services/sync/webdavProvider.ts:13-17 | the result is a prefix of the URL that does not end in '/', and everything removed was '/' |
| WebDavAdapter.StripTrailingSlashesStable | src/services/sync/webdavProvider.ts:13-17 | stripping twice is stripping once; a URL without a trailing '/' is kept |
| WebDavAdapter.StripIgnoresExtraSlashes | src/services/sync/webdavProvider.ts:13-21 | any run of slashes typed after the URL gives the same stored URL, so the file path has one separating slash |
| WebDavAdapter.WebDavProvider.constructor | src/services/sync/webdavProvider.ts:9-11 | empty URL, user name and password |
| WebDavAdapter.WebDavProvider.SetCredentials | src/services/sync/webdavProvider.ts:13-17 | stores the URL without trailing slashes, and the user name and password as given |
| WebDavAdapter.WebDavProvider.IsAuthenticated | src/services/sync/webdavProvider.ts:23-49 | a PROPFIND on the URL is sent iff URL and user name are set and `btoa` accepts user:password; the answer is true iff it was sent and the reply is 207 or 200 |
| WebDavAdapter.WebDavProvider.Disconnect | src/services/sync/webdavProvider.ts:51-55 | URL, user name and password cleared, so the adapter is unavailable |
| WebDavAdapter.WebDavProvider.Upload | src/services/sync/webdavProvider.ts:23-70 | credentials outside Latin-1 fail with the btoa error and send nothing; otherwise PUTs the payload to the file path and fails exactly on a non-2xx reply, with the status in the message |
| WebDavAdapter.WebDavProvider.Download | src/services/sync/webdavProvider.ts:23-83 | never throws; credentials outside Latin-1 give null with no request; otherwise GETs the file path and gives the payload iff the reply is OK |
| WebDavAdapter.CredentialsLatin1 | src/services/sync/webdavProvider.ts:23-25 | user:password can be Basic-encoded iff both the user name and the password are Latin-1 text |
| Sync.PushedMeta | src/services/sync/syncManager.ts:312-320 | the pushed stamp is the local change time, or now when that is 0, with this device's id |
| Sync.OwnUploadNeverPending | src/services/sync/syncManager.ts:237-243 | a snapshot this device pushed never counts as a pending update for it |
| Sync.PullSettlesRemote | src/services/sync/syncManager.ts:237-281 | after pulling a snapshot, the same snapshot is no longer pending |
| Sync.OtherDeviceSeesNewerPush | src/services/sync/syncManager.ts:237-243 | another device sees a push as pending iff its last local change is older than the pushed stamp |
| Sync.RemoteChecked | src/services/sync/syncManager.ts:221-248 | only remoteUpdatedAt and pendingUpdate change, and only when the remote is consulted without an error; then remoteUpdatedAt is the found stamp and pending is the last-writer-wins decision; an absent file clears pending |
| Sync.SyncManager.constructor | src/services/sync/syncManager.ts:32-74 | default config and initial status, no callbacks, no polling |
| Sync.SyncManager.SetSyncCallbacks | src/services/sync/syncManager.ts:76-82 | the callbacks are registered |
| Sync.SyncManager.SetLocalUpdatedAt | src/services/sync/syncManager.ts:88-91 | only localUpdatedAt changes, in config and status |
| Sync.SyncManager.StartBackgroundCheck | src/services/sync/syncManager.ts:365-371 | polling is on |
| Sync.SyncManager.StopBackgroundCheck | src/services/sync/syncManager.ts:373-377 | polling is off |
| Sync.SyncManager.DismissPendingUpdate | src/services/sync/syncManager.ts:361-363 | only pendingUpdate changes, to false |
| Sync.SyncManager.HandleOAuthCode | src/services/sync/syncManager.ts:208-220 | true only for an OAuth provider, and then exactly when the code exchange succeeded |
| Sync.SyncManager.CheckRemote | src/services/sync/syncManager.ts:221-248 | pending iff enabled, with a provider, authenticated, meta found, newer than the local change and from another device; the new status is RemoteChecked of the old one |
| Sync.SyncManager.InitSync | src/services/sync/syncManager.ts:93-126 | loads the persisted config; a deviceId "dev_" + 8 characters is generated and saved only when none exists; the status mirrors the loaded provider, flag, lastSynced and localUpdatedAt; when enabled with a provider the remote is checked (RemoteChecked) and polling starts |
| Sync.SyncManager.SetProviderCredentials | src/services/sync/syncManager.ts:143-166 | only the chosen provider's credential fields change, from the given map |
| Sync.SyncManager.EnableSync | src/services/sync/syncManager.ts:167-188 | succeeds iff the provider is available and authenticated or consent started; then provider set, enabled, saved, polling, and the status exactly as checkRemote leaves it; on failure nothing changes |
| Sync.SyncManager.DisableSync | src/services/sync/syncManager.ts:189-206 | always ends with no provider, disabled, no error, nothing pending and remoteUpdatedAt 0, saved, polling off |
| Sync.SyncManager.TryBeginSync | src/services/sync/syncManager.ts:254-301 | starts iff enabled, with a provider and not already syncing; then syncing is set and the error cleared; otherwise nothing changes |
| Sync.SyncManager.CompletePull | src/services/sync/syncManager.ts:260-290 | succeeds iff authenticated, with data that validates; then the data is delivered once, lastSynced becomes now, localUpdatedAt and remoteUpdatedAt take the remote stamp and pending is cleared; on failure "Not authenticated" or the thrown message is recorded and nothing else changes; syncing ends false |
| Sync.SyncManager.CompletePush | src/services/sync/syncManager.ts:303-335 | sends the local data with PushedMeta iff authenticated and there is data; succeeds iff the upload does; then remoteUpdatedAt is the stamp and localUpdatedAt unchanged; syncing ends false |
| Sync.SyncManager.PullRemote | src/services/sync/syncManager.ts:253-291 | without sync enabled, a provider, or when already syncing: false and nothing changes; otherwise the whole new config, status (remoteUpdatedAt included), persisted entry and deliveries of CompletePull, with the error "Not authenticated", the thrown message, or none on failure |
| Sync.SyncManager.PushLocal | src/services/sync/syncManager.ts:296-358 | without sync enabled, a provider, or when already syncing: false, nothing sent and nothing changes; otherwise sends PushedMeta iff authenticated with local data, succeeds iff the upload does, then lastSynced is now and remoteUpdatedAt the pushed stamp; on failure "Not authenticated" or the upload error is recorded |
| Sync.SyncManager.SyncNow | src/services/sync/syncManager.ts:342-355 | when the remote is pending, false, nothing uploaded, the status as checkRemote leaves it; otherwise pushLocal's sending rule and result, and its new state on success and on failure on top of the checked status |
| Sync.SyncManager.BackgroundTick | src/services/sync/syncManager.ts:365-371 | a poll raises pending under the same condition as checkRemote and leaves the status exactly as checkRemote does (RemoteChecked) |
| Sync.InFlightExcludesOthers | src/services/sync/syncManager.ts:253-351 | while a sync holds the syncing flag, pushLocal and syncNow return false and change nothing else |
| Sync.OwnPushNotPending | src/services/sync/syncManager.ts:221-336 | after this device's successful push, checking its own file reports nothing pending |
| Sync.PulledUpdateSettles | src/services/sync/syncManager.ts:221-291 | a newer file from another device is pending, is pulled and delivered, and then is no longer pending |
| Sync.SyncNowThenCheck | src/services/sync/syncManager.ts:342-355 | after a successful syncNow, checking the file it uploaded reports nothing pending |
| Csv.Cells | src/services/export.ts:349-379 | every line, even an empty one, yields at least one cell |
| Csv.Fields | src/services/export.ts:349-379 | every line yields at least one field |
| Csv.ParseCsvLine | src/services/export.ts:349-379 | the character loop yields exactly Fields(line) |
| Csv.FieldsAreTrimmed | src/services/export.ts:369-378 | every parsed field is already trimmed |
| Csv.CellsWithoutQuotes | src/services/export.ts:349-379 | a line without quotes splits at every comma: commas + 1 cells, the comma-separated pieces |
| Csv.QuotedFieldRoundTrip | src/services/export.ts:276-379 | a name escaped with doubled quotes and quoted parses back as the trimmed name, commas and quotes included |
| Csv.QuotedRowRoundTrip | src/services/export.ts:276-379 | a row of quoted cells parses back to every cell, trimmed |
| Csv.ScanCells | src/services/export.ts:349-379 | a quoted cell reads as one field, a bare cell as its comma-separated pieces |
| Csv.NameFor | src/services/export.ts:278-286 | the name of the first item with that id, or "" when there is none |
| Csv.SubscriptionCells | src/services/export.ts:267-291 | the fourteen cells of an exported subscription, the name and notes quoted, the lookups bare |
| Csv.ExpenseCells | src/services/export.ts:315-328 | the nine cells of an exported expense; name and notes escaped and quoted, the tags joined with ", " and quoted |
| Csv.SubscriptionLineReadsBack | src/services/export.ts:267-379 | an exported line reads back cell for cell when no bare cell holds a comma or a quote |
| Csv.CorrectedLineReadsBack | src/services/export.ts:267-379 | with every cell quoted, all fourteen columns read back whatever the names contain |
| Csv.CategoryWithCommaShiftsColumns | src/services/export.ts:284-379 | as written, a category name with a comma reads back as more columns than the header |
| Csv.Pad2 | src/services/export.ts:553-559 | padStart(2, "0"): two characters, the digit kept at the end |
| Csv.DateGroups | src/services/export.ts:552-558 | the three digit groups of D?D sep D?D sep DDDD, and nothing for any other text |
| Csv.NormalizeDateIdempotent | src/services/export.ts:543-570 | every result starts with a date, and normalising it again changes nothing |
| Csv.UsAndEuropeanAgree | src/services/export.ts:551-561 | M/D/YYYY and D.M.YYYY of the same day give the same YYYY-MM-DD |
| Csv.DigitsGroups | src/services/export.ts:547-561 | digit groups joined by a non-digit separator do not look like an ISO date and are read back as those groups |
| Csv.Column | src/services/export.ts:418-426 | col(name): the first header equal to the name, or to it with spaces as underscores; -1 when neither |
| Csv.ExportedHeaderFields | src/services/export.ts:267-272 | the exporter's header line parses as its own headers |
| Csv.ExportedHeadersRecognised | src/services/export.ts:416-441 | importing an exported file finds every column where the exporter put it |
| Csv.ContentLines | src/services/export.ts:412 | exactly the lines of the text that are not blank |
| Csv.MatchId | src/services/export.ts:462-497 | the id of the first item whose lower-cased name equals the cell, else the default; nothing (a throw) for a missing cell |
| Csv.CycleOf | src/services/export.ts:445-468 | daily 1, weekly 2, yearly 4 in any case; anything else, or a missing cell, 3 (monthly) |
| Csv.FrequencyOf | src/services/export.ts:471 | the parsed number when it is not zero; a missing, unparsable or zero frequency gives 1 |
| Csv.AutoRenewOf | src/services/export.ts:476-477 | false only for no, false or 0 |
| Csv.InactiveOf | src/services/export.ts:500-501 | true only for yes, true or 1 |
| Csv.ImportRow | src/services/export.ts:451-528 | blank rows and rows with an empty name are skipped; otherwise the subscription with the mapped fields and the context defaults |
| Csv.ImportedRows | src/services/export.ts:451-532 | the imported subscriptions in row order, or nothing when a row throws |
| Csv.ImportFromCsv | src/services/export.ts:401-537 | nothing for fewer than two non-blank lines, no name column or no imported row; otherwise ImportedRows |
| Csv.ImportLines | src/services/export.ts:451-530 | the loop over the data lines computes ImportedRows |
| Csv.ThrowAborts | src/services/export.ts:451-535 | once a row throws, the whole import gives nothing |
| ArchiveIcons.WordPrefix | src/services/export.ts:32 | the longest prefix of word characters |
| ArchiveIcons.JpegIsJpg | src/services/export.ts:32-33 | a data:image/jpeg icon is stored as .jpg |
| ArchiveIcons.NonImageIsPng | src/services/export.ts:32-33 | an icon without an image subtype is stored as .png |
| ArchiveIcons.IconIndexOfFilename | src/services/export.ts:34 | a file name gives back its number, so different numbers never share a file |
| ArchiveIcons.CustomIcons | src/services/export.ts:14-51 | the non-empty data: icons, in order |
| ArchiveIcons.AddIcon | src/services/export.ts:26-37 | a URI already collected keeps its file name; a new one gets the next number |
| ArchiveIcons.CollectCustomIcons | src/services/export.ts:22-54 | the subscriptions' logos then the payment methods' icons, each distinct custom icon once, numbered in order |
| ArchiveIcons.AddIcons | src/services/export.ts:39-51 | one loop of the collector computes Collected on the icons seen so far |
| ArchiveIcons.CollectedIconsAreTheCustomOnes | src/services/export.ts:14-54 | only custom icons are collected, each exactly once, and every custom logo and icon is collected |
| ArchiveIcons.CollectedFilenamesNumbered | src/services/export.ts:22-54 | the files are icon_0, icon_1, ... in order, so no two icons share a file name |
| ArchiveIcons.MapOf | src/services/export.ts:62-65 | the map of the pairs, later pairs overwriting earlier ones |
| ArchiveIcons.RestoreIconsFromArchive | src/services/export.ts:87-101 | every logo and icon the archive map holds is replaced by its URI, in place; the others are kept |
| ArchiveIcons.ExtensionOfImage | src/services/export.ts:32-33 | an image/<word> icon is stored with the word as extension, jpeg turned into jpg |
| ArchiveIcons.Base64PartAfterComma | src/services/export.ts:107 | the text dataUriToUint8Array decodes is what follows the URI's comma |
| ArchiveIcons.FileExtensionOfIconFilename | src/services/export.ts:120-129 | the extension read back from icon_N.<ext> selects the mime type of the lower-cased extension it was written with |
| ArchiveIcons.RestoredImage | src/services/export.ts:106-134 | an image/<word> icon whose one-comma payload re-encodes to itself comes back as data:<the mime type of its stored extension>;base64,<payload>: unlisted types become image/png and other parameters are dropped |
| ArchiveIcons.IconTypeBecomesPng | src/services/export.ts:32-134 | a data:image/x-icon;base64 icon is stored with extension x and comes back as data:image/png;base64 with the same payload |
| ArchiveIcons.PathsLeadBack | src/services/export.ts:60-231 | in the collected map a URI leads to its archive path, and the path leads to the URI the import rebuilds from that file |
| ArchiveIcons.SublyIconsRoundTrip | src/services/export.ts:60-231 | replacing icons with paths and restoring them from the archive gives back every logo and icon, when each custom icon is rebuilt as itself (ComesBack) |
| Database.SafeJsonParse | src/services/database.ts:39-42 | the parsed value, or the fallback on invalid JSON |
| Database.BoolColumn | src/services/database.ts:67-81 | booleans are stored as 1 and 0 |
| Database.ToSubscription | src/services/database.ts:44-57 | flags read as "non-zero", tags parsed from JSON with [] as fallback, history attached |
| Database.SubscriptionRowRoundTrip | src/services/database.ts:44-81 | toSubscription(subValues(s)) is s: flags and tags survive |
| Database.ToExpense | src/services/database.ts:59-65 | tags parsed from JSON with [] as fallback |
| Database.ExpenseRowRoundTrip | src/services/database.ts:59-95 | toExpense(expValues(e)) is e |
| Database.MethodOf | src/services/database.ts:132 | a payment method row is enabled iff its column is non-zero |
| Database.TagOf | src/services/database.ts:133 | a tag row is favourite iff its column is non-zero |
| Database.ReadConfig | src/services/database.ts:627-632 | missing iff the key is absent; text that is not JSON is returned verbatim |
| Database.ConfigRoundTrip | src/services/database.ts:627-640 | a non-string value reads back parsed; a string reads back verbatim, or parsed when it is itself JSON |
| Database.StripCommentsLeavesNoDashes | src/services/database.ts:899 | comment removal leaves no "--" |
| Database.StatementsAreClean | src/services/database.ts:895-909 | every statement is non-empty, trimmed, without ';' and without comments |
| Database.ExecuteSqlFile | src/services/database.ts:895-909 | runs exactly the statements of the script, and the count is their number |
| Database.RunStatements | src/services/database.ts:904-908 | the loop runs each statement once, in order, and counts them |
| Database.DeleteCascade | src/services/database.ts:359-378 | deleted subscriptions, their payment records and references to them are gone; all other rows are kept |
| Database.RenameReplacesFirst | src/services/database.ts:490-503 | a selected row's first tag of that name is renamed |
| Database.RemoveStripsEvery | src/services/database.ts:505-514 | a selected row loses every tag of that name and keeps the others |
| Database.UnselectedRowsKept | src/services/database.ts:490-514 | rows whose JSON does not mention the tag are left alone by both batches |
| Database.HistoryOfMembers | src/services/database.ts:114-127 | a subscription's history holds exactly the records with its id |
| Database.GroupRecords | src/services/database.ts:114-120 | the map built in the loop gives every subscription its records in read order |
| Database.LoadNeedsInitialized | src/services/database.ts:97-142 | loading gives nothing iff "initialized" is not "1"; loaded data is initialized |
| Database.SavedConfigEntries | src/services/database.ts:207-217 | saving writes initialized "1", the settings, keys and ids, and telegramEnabled as "1"/"0" |
| Database.HistoryOfSaved | src/services/database.ts:194-201 | with distinct ids each subscription's saved records group back to its history |
| Database.SaveThenLoadConfig | src/services/database.ts:97-229 | loading what was saved gives back the settings, telegramEnabled, fixerProvider, keys and chat id |
| Database.SaveThenLoadCatalogs | src/services/database.ts:97-229 | loading what was saved gives back every catalog |
| Database.SaveThenLoadRecords | src/services/database.ts:97-229 | loading what was saved gives back subscriptions with their histories, and expenses |
| Database.Store.constructor | src/services/database.ts:25 | the tables as given and no upload pending |
| Database.Store.TriggerSync | src/services/database.ts:27-33 | always advances localUpdatedAt; an upload is (re)scheduled only when sync is enabled, replacing any pending one |
| Database.Store.SetConfigValue | src/services/database.ts:634-640 | only the key's entry changes, to the serialised value |
| Database.Store.DeleteSubscription | src/services/database.ts:359-367 | the cascade for one id, then a sync trigger |
| Database.Store.DeleteSubscriptionsBatch | src/services/database.ts:369-378 | an empty list changes nothing and triggers nothing; otherwise the cascade for every id, then a sync trigger |
| Database.Store.UpdateExpenseTagsBatch | src/services/database.ts:490-503 | every expense row takes its renamed tags |
| Database.Store.RemoveExpenseTagBatch | src/services/database.ts:505-514 | every expense row takes its stripped tags |
| Database.Store.LoadAllData | src/services/database.ts:97-148 | returns what Load reads from the tables |
| Database.Store.SaveAllData | src/services/database.ts:150-229 | the tables become what Save writes |
| Schema.ParsedItems | src/schemas/appData.ts:386-402 | the valid items, never more than given |
| Schema.SafeParseArray | src/schemas/appData.ts:386-402 | the fallback unless the value is an array with at least one valid item; then the valid items in order |
| Schema.ParsedItemsAppend | src/schemas/appData.ts:390-398 | parsing distributes over concatenation, so order is kept |
| Schema.ParsedItemsAllValid | src/schemas/appData.ts:390-398 | when every item is valid, each is kept at its index |
| Schema.ParsedItemsNoneValid | src/schemas/appData.ts:386-402 | when no item is valid the fallback is returned |
| Schema.MigratedTags | src/schemas/appData.ts:415-429 | at most one tag per item |
| Schema.MigrateTags | src/schemas/appData.ts:415-429 | a non-array gives []; otherwise the migrated items |
| Schema.MigrateLegacyStrings | src/schemas/appData.ts:418-423 | the string at index i becomes tag "tag-migrated-i" with order i, favourite; the ids are distinct |
| Schema.Recover | src/schemas/appData.ts:349-370 | recovered data is initialized with no rates key or provider; the settings are safeParseObj's; fixerApiKey, telegramBotToken and telegramChatId are the stored string or "", fixerProvider the stored number or 0, telegramEnabled the stored boolean or false |
| Schema.SafeParseSettings | src/schemas/appData.ts:404-412 | the schema's parse of the settings (of {} when they are absent or null) when it accepts, else the defaults |
| Schema.ValidateAppData | src/schemas/appData.ts:339-371 | schema-valid data is returned as parsed; null iff the schema fails and the input is not an object |
| Schema.ValidateImportData | src/schemas/appData.ts:376-382 | data iff the input is an object whose subscriptions field is an array |
| Schema.RecoveryKeepsValidSubscriptions | src/schemas/appData.ts:349-370 | in recovery, valid subscriptions all survive in order |
| SubscriptionsStore.FindIndex | src/stores/subscriptions.ts:38 | the first index with that id, or -1 when there is none |
| SubscriptionsStore.AtFirstChangesOne | src/stores/subscriptions.ts:37-44 | the entry at the first index with the id is changed and every other entry is kept; no entry, no change |
| SubscriptionsStore.DeleteOneSpec | src/stores/subscriptions.ts:46-52 | no entry has the id or points to it; every other entry survives, unlinked only when it pointed to it |
| SubscriptionsStore.DeleteManySpec | src/stores/subscriptions.ts:153-161 | no listed id survives or stays referenced; every unlisted entry survives |
| SubscriptionsStore.EmptyLinkSurvivesBatch | src/stores/subscriptions.ts:157-159 | an empty replacement link is kept by the batch guard but cleared by the single delete |
| SubscriptionsStore.Cloned | src/stores/subscriptions.ts:54-67 | name + " (copy)", empty history, the new id, all else copied |
| SubscriptionsStore.CloneIdIsFresh | src/stores/subscriptions.ts:54-67 | a fresh id makes the clone distinct from every entry |
| SubscriptionsStore.NewRecord | src/stores/subscriptions.ts:102-118 | the amount defaults to the price, the note to "", with the subscription's currency and today's date |
| SubscriptionsStore.PaidPrepends | src/stores/subscriptions.ts:102-118 | recording a payment puts the record first and keeps the rest of the history |
| SubscriptionsStore.WithRecord | src/stores/subscriptions.ts:120-127 | the record is appended to the history |
| SubscriptionsStore.WithoutRecord | src/stores/subscriptions.ts:129-135 | exactly the records with that id are removed |
| SubscriptionsStore.ToggleTwiceRestores | src/stores/subscriptions.ts:137-143 | toggling the favourite twice restores the list |
| SubscriptionsStore.MergedTagsSpec | src/stores/subscriptions.ts:181-190 | old tags first, then the new ones not already present; no duplicates; every new tag present |
| SubscriptionsStore.ForListedChangesListed | src/stores/subscriptions.ts:163-190 | listed entries are changed, all others kept |
| SubscriptionsStore.Store.constructor | src/stores/subscriptions.ts:13 | empty list |
| SubscriptionsStore.Store.Hydrate | src/stores/subscriptions.ts:23-25 | the list takes the loaded data when there is any |
| SubscriptionsStore.Store.AddSubscription | src/stores/subscriptions.ts:31-35 | appends the subscription iff the schema accepts it (for example frequency 0 is refused); otherwise the parse throws and the list is unchanged |
| SubscriptionsStore.Store.UpdateSubscription | src/stores/subscriptions.ts:37-44 | merges at the first index with the id when the schema accepts the merge; a rejected merge throws and changes nothing; an unknown id changes nothing |
| SubscriptionsStore.Store.UnlinkLoop | src/stores/subscriptions.ts:48-50 | clears every replacement link the predicate selects |
| SubscriptionsStore.Store.DeleteSubscription | src/stores/subscriptions.ts:46-52 | the list without the id and without links to it |
| SubscriptionsStore.Store.BatchDelete | src/stores/subscriptions.ts:153-161 | the list without the ids and without links to them |
| SubscriptionsStore.Store.CloneSubscription | src/stores/subscriptions.ts:54-67 | nothing and no change for a missing id; otherwise the clone, appended |
| SubscriptionsStore.Store.RecordPayment | src/stores/subscriptions.ts:102-118 | no change for a missing id; otherwise one new record first and the next payment advanced |
| SubscriptionsStore.Store.AddPaymentRecord | src/stores/subscriptions.ts:120-127 | the record appended to that subscription's history |
| SubscriptionsStore.Store.DeletePaymentRecord | src/stores/subscriptions.ts:129-135 | the record removed from that subscription's history |
| SubscriptionsStore.Store.ToggleFavorite | src/stores/subscriptions.ts:137-143 | the favourite flag of that subscription flipped |
| SubscriptionsStore.Store.MarkNotified | src/stores/subscriptions.ts:145-151 | that subscription's lastNotifiedDate set |
| SubscriptionsStore.Store.ForEachListed | src/stores/subscriptions.ts:163-190 | the loop changes exactly the listed entries |
| SubscriptionsStore.Store.BatchSetInactive | src/stores/subscriptions.ts:163-170 | listed entries get the inactive flag |
| SubscriptionsStore.Store.BatchSetCategory | src/stores/subscriptions.ts:172-179 | listed entries get the category |
| SubscriptionsStore.Store.BatchSetTags | src/stores/subscriptions.ts:181-190 | listed entries get the merged tags |
| CatalogStore.FirstWith | src/stores/catalog.ts:59-66 | the first index with that id, or -1 |
| CatalogStore.LastIndex | src/stores/catalog.ts:77-85 | the last position of the id in the list, or -1 |
| CatalogStore.ReorderedSpec | src/stores/catalog.ts:77-85 | with unique ids, a listed item gets its last position in ids as order, unlisted items are kept, membership unchanged |
| CatalogStore.ReorderLoop | src/stores/catalog.ts:79-83 | the forEach computes Reordered |
| CatalogStore.ReorderCategoriesSpec | src/stores/catalog.ts:77-85 | the category at position i of ids gets order i; unlisted ones keep theirs; same members |
| CatalogStore.FavoriteTags | src/stores/catalog.ts:29-31 | exactly the favourite tags |
| CatalogStore.EnabledMethods | src/stores/catalog.ts:33-35 | exactly the enabled methods |
| CatalogStore.MainCurrency | src/stores/catalog.ts:37-40 | the settings' main currency when present, else the first; none only for an empty list |
| CatalogStore.Assign | src/stores/catalog.ts:214-233 | a patch with a name renames the tag |
| CatalogStore.RenameSpec | src/stores/catalog.ts:214-233 | in each subscription holding the old name, the first occurrence becomes the new name, the tag list keeps its length and every other tag and field is kept; subscriptions without it are unchanged |
| CatalogStore.StripSpec | src/stores/catalog.ts:235-249 | no subscription keeps the name; other tags unchanged |
| CatalogStore.NewTagLosesOrder | src/stores/catalog.ts:205-212 | as written, the new tag gets order 0 whatever the largest existing order, so it does not come after a tag with a non-negative order |
| CatalogStore.NewTagComesLast | src/stores/catalog.ts:205-212 | corrected, the new tag's order is above every existing one; trimmed name, favourite |
| CatalogStore.Store.constructor | src/stores/catalog.ts:19-23 | all catalogs empty |
| CatalogStore.Store.Hydrate | src/stores/catalog.ts:42-49 | each catalog takes the loaded list when there is one |
| CatalogStore.Store.UpdateCategory | src/stores/catalog.ts:59-66 | the first category with the id gets the name and, when given, the icon; unknown id, no change |
| CatalogStore.Store.DeleteCategory | src/stores/catalog.ts:68-75 | refuses "cat-1" and categories in use; otherwise removes the category; other catalogs unchanged |
| CatalogStore.Store.DeleteCurrency | src/stores/catalog.ts:104-112 | refuses the main currency and currencies in use; otherwise removes it |
| CatalogStore.Store.DeleteHouseholdMember | src/stores/catalog.ts:150-158 | refuses with one member or fewer, for the first member and for a payer; otherwise removes it |
| CatalogStore.Store.DeletePaymentMethod | src/stores/catalog.ts:177-183 | refuses a method in use; otherwise removes it |
| CatalogStore.Store.TogglePaymentMethod | src/stores/catalog.ts:185-192 | flips enabled, except that an enabled method in use is never disabled |
| CatalogStore.Store.ReorderCategories | src/stores/catalog.ts:77-85 | the categories reordered by ids |
| CatalogStore.Store.ReorderCurrencies | src/stores/catalog.ts:114-122 | the currencies reordered by ids |
| CatalogStore.Store.ReorderPaymentMethods | src/stores/catalog.ts:194-202 | the payment methods reordered by ids |
| CatalogStore.Store.ReorderTags | src/stores/catalog.ts:251-259 | the tags reordered by ids |
| CatalogStore.Store.AddTag | src/stores/catalog.ts:205-212 | appends and returns the tag with order maxOrder + 1 (the corrected NewTag of Findings row 2), not the order 0 the code as written parses |
| CatalogStore.Store.ToggleTagFavorite | src/stores/catalog.ts:261-267 | flips the favourite flag of the first tag with the id |
| CatalogStore.Store.EnsureTag | src/stores/catalog.ts:269-274 | returns the trimmed name; adds the corrected NewTag (order maxOrder + 1) only when the name is non-blank and no tag has it; afterwards a tag with the name exists |
| CatalogStore.Store.UpdateTag | src/stores/catalog.ts:214-233 | unknown id, no change; otherwise the tag patched and, on a rename, the first occurrence renamed in every subscription |
| CatalogStore.Store.DeleteTag | src/stores/catalog.ts:235-249 | unknown id, no change; otherwise the tag removed and stripped from every subscription |
| Converter.MovedUp | src/stores/converter.ts:12-19 | same length |
| Converter.MovedDown | src/stores/converter.ts:21-28 | same length |
| Converter.MovedUpSpec | src/stores/converter.ts:12-19 | swaps the id with its predecessor when its index is above 0; first or absent, no change |
| Converter.MovedDownSpec | src/stores/converter.ts:21-28 | swaps the id with its successor when it is not last; last or absent, no change |
| Converter.MovesKeepIds | src/stores/converter.ts:12-28 | both moves keep the multiset of ids |
| Converter.UpThenDownRestores | src/stores/converter.ts:12-28 | moving an id that is not first up and then down restores the order |
| Converter.Store.constructor | src/stores/converter.ts:5-6 | base amount 1, empty order |
| Converter.Store.SetOrder | src/stores/converter.ts:8-10 | the order is the given ids |
| Converter.Store.MoveUp | src/stores/converter.ts:12-19 | the order moved up, same ids |
| Converter.Store.MoveDown | src/stores/converter.ts:21-28 | the order moved down, same ids |
| Converter.Store.Reset | src/stores/converter.ts:30-32 | base amount 1, order untouched |
| Notifications.IsWithinSchedule | src/services/notifications.ts:63-83 | any: always; morning 7-11; evening 17-21; custom: the target hour and the next |
| Notifications.WordRun | src/services/notifications.ts:124 | the length of the leading run of word characters |
| Notifications.PlaceholderAt | src/services/notifications.ts:124 | a placeholder is "{", at least one word character, "}" |
| Notifications.ApplyTemplateNoValues | src/services/notifications.ts:123-125 | with no values every placeholder stays verbatim |
| Notifications.ApplyTemplateOnePlaceholder | src/services/notifications.ts:123-125 | a known {key} is replaced by its value and the text around it is kept |
| Notifications.CheckAndNotify | src/services/notifications.ts:131-265 | the loop computes Run over the subscriptions |
| Notifications.SilentSubscription | src/services/notifications.ts:149-156 | inactive or silenced subscriptions produce no alert and no send |
| Notifications.AlertsOfSubscription | src/services/notifications.ts:153-222 | at most one alert; upcoming or due today iff 0 ≤ days ≤ daysBefore, due today iff 0 days; overdue iff not auto-renewing and days < 0; id "subId-type" |
| Notifications.QuietOutsideWindow | src/services/notifications.ts:173-176 | outside the schedule or when already notified today nothing is sent |
| Notifications.NonRecurringExactDay | src/services/notifications.ts:192-196 | non-recurring mode sends only on the exact daysBefore day |
| Notifications.SentCountIsSuccesses | src/services/notifications.ts:204-265 | sentCount counts exactly the successful sends |
| Notifications.AlertsFromActive | src/services/notifications.ts:149-156 | every alert belongs to an active subscription with notifications on |
| Notifications.StampLagsEastOfUtc | src/services/notifications.ts:88-142 | as written, east of UTC the stamp is the UTC date of local midnight, a day behind |
| Notifications.SentAgainWhenStampLags | src/services/notifications.ts:88-222 | as written, with a lagging stamp a recurring reminder is sent again the same day |
| Notifications.NotifiedOncePerDay | src/services/notifications.ts:88-222 | corrected, after stamping today a subscription sends nothing more that day |
| Telegram.ReplaceAll | src/services/telegram.ts:78-81 | the replaced character is gone when the replacement does not contain it |
| Telegram.EscapeHtmlPerChar | src/services/telegram.ts:77-82 | the three chained replaces escape every character exactly once |
| Telegram.EscapeHtmlSpec | src/services/telegram.ts:77-82 | no '<' or '>' in the output; text without &, < or > is unchanged |
| Telegram.EscapeLessThan | src/services/telegram.ts:79-81 | "<" becomes "&lt;", never "&amp;lt;" |
| Telegram.KindOf | src/services/telegram.ts:66-72 | due today for 0, in N days for N > 0, overdue by -N for N < 0 |
| Telegram.ReminderTextSpec | src/services/telegram.ts:58-75 | the text starts with the kind's icon, holds name and price only escaped, and states the day count |
| Telegram.SendResult | src/services/telegram.ts:16-45 | no request and false without token or chat id; otherwise true iff the reply is OK |
| Calculations.ConvertPrice | src/services/calculations.ts:19-22 | the price unchanged when the rate is not positive; otherwise price / rate |
| Calculations.DaysUntilPayment | src/services/calculations.ts:27-34 | a value in [0, 30] for every parsed date |
| Calculations.DaysUntilSpec | src/services/calculations.ts:27-34 | 0 for a past date, n for a date n days ahead, 30 beyond |
| Calculations.SubscriptionProgress | src/services/calculations.ts:39-58 | a value in [0, 100] for every parsed date; 100 when the cycle length is not positive |
| Calculations.ProgressSpec | src/services/calculations.ts:39-58 | 0 at the start of the cycle, 100 at the next payment, never decreasing with time |
| Calculations.BillingCycleText | src/services/calculations.ts:63-71 | "" for an unknown cycle |
| Calculations.BillingCycleTextSpec | src/services/calculations.ts:63-71 | the singular key for frequency 1, "<frequency> <plural key>" otherwise |
| Calculations.OverdueUpcomingSpec | src/services/calculations.ts:140-159 | inactive is neither overdue nor upcoming; auto-renewing is never overdue; never both |
| ZodErrors.KindOf | src/composables/useZodErrors.ts:25-26 | the field kind exists iff the issue names a known field |
| ZodErrors.FindSub | src/composables/useZodErrors.ts:40 | the first position where the pattern occurs, or -1 when it does not |
| ZodErrors.ReplaceOnceFills | src/composables/useZodErrors.ts:40 | the first "{min}" is replaced by the value |
| ZodErrors.ZodIssueMessage | src/composables/useZodErrors.ts:20-52 | invalid_type: number, date or required by field kind; too_small: min value on number fields, required otherwise; too_big: the issue's message; any other code: the message, or field_required when it is empty |
| ZodErrors.MinimumInMessage | src/composables/useZodErrors.ts:37-43 | the minimum (default 1) is written into the min-value message |
| ZodErrors.MapErrorsKeepsSet | src/composables/useZodErrors.ts:65-70 | an existing non-empty entry is never overwritten |
| ZodErrors.MapErrorsKeys | src/composables/useZodErrors.ts:65-70 | entries exist for the old keys and exactly the issues with a non-empty path |
| ZodErrors.MapErrorsFirstWins | src/composables/useZodErrors.ts:65-70 | a field's entry is the message of its first issue |
| ZodErrors.ErrorRecord.constructor | src/composables/useZodErrors.ts:61 | the entries as given |
| ZodErrors.MapZodErrors | src/composables/useZodErrors.ts:59-71 | the loop writes exactly MapErrors into the record |
| Alerts.Dismissed | src/composables/useAlerts.ts:11-13 | exactly the alerts with another id |
| Alerts.DismissedIsSubsequence | src/composables/useAlerts.ts:11-13 | the remaining alerts keep their order |
| Alerts.FilterKeepsAll | src/composables/useAlerts.ts:11-13 | dismissing an id no alert carries gives back the same list |
| Alerts.AlertList.constructor | src/composables/useAlerts.ts:4 | no alerts |
| Alerts.AlertList.SetAlerts | src/composables/useAlerts.ts:7-9 | the whole list replaced |
| Alerts.AlertList.Dismiss | src/composables/useAlerts.ts:11-13 | the list without that id, the others in order; an id no alert carries leaves the list as it was |
| Alerts.AlertList.DismissAll | src/composables/useAlerts.ts:15-17 | the list empty |
| ConfirmDialog.CallbackArgument | src/composables/useConfirmDialog.ts:10-13 | the callback runs with the pending id iff it is non-empty |
| ConfirmDialog.Dialog.constructor | src/composables/useConfirmDialog.ts:4 | nothing pending |
| ConfirmDialog.Dialog.RequestConfirm | src/composables/useConfirmDialog.ts:6-8 | the id pending |
| ConfirmDialog.Dialog.Confirm | src/composables/useConfirmDialog.ts:10-15 | the callback for the pending id when non-empty; always clears it |
| ConfirmDialog.Dialog.Cancel | src/composables/useConfirmDialog.ts:17-19 | clears the pending id without a callback |
| ConfirmDialog.RequestThenConfirm | src/composables/useConfirmDialog.ts:6-15 | requestConfirm then confirm on a dialog runs the callback once with that id unless it is empty, and leaves nothing pending |
| ConfirmDialog.RequestThenCancel | src/composables/useConfirmDialog.ts:6-19 | requestConfirm then cancel: a later confirm runs no callback and nothing stays pending |
| ExpensesStore.Window | src/stores/expenses.ts:26-27 | a page holds at most limit items |
| ExpensesStore.QueryFor | src/stores/expenses.ts:11-27 | limit PAGE_SIZE (10) and offset (page-1)·10 |
| ExpensesStore.PagesCover | src/stores/expenses.ts:11-27 | every expense appears on its page, at its place |
| ExpensesStore.Merge | src/stores/expenses.ts:41-55 | the merged expense has the patch's id |
| ExpensesStore.MergeSpec | src/stores/expenses.ts:41-55 | for every field, a supplied value wins and a missing one keeps the old value; the empty patch changes nothing; merging twice is merging once |
| ExpensesStore.FindById | src/stores/expenses.ts:42 | the first index with the id, or -1 |
| ExpensesStore.UpdatedExpense | src/stores/expenses.ts:41-55 | merged over the cached item, or over the database lookup when not cached; nothing when neither exists |
| ExpensesStore.Store.constructor | src/stores/expenses.ts:14-18 | no items, count 0, page 1, no filter, not loading |
| ExpensesStore.Store.FetchPage | src/stores/expenses.ts:20-33 | page and filter overwritten only when given; the query is QueryFor; loading is false afterwards |
| ExpensesStore.Store.AddExpense | src/stores/expenses.ts:35-39 | inserts and refetches the current page |
| ExpensesStore.Store.UpdateExpense | src/stores/expenses.ts:41-55 | no write and no change when the expense is unknown; otherwise the merged expense is written and the page refetched |
| ExpensesStore.Store.DeleteExpense | src/stores/expenses.ts:57-60 | deletes and refetches the current page |
| ExpensesStore.Store.BatchDeleteExpenses | src/stores/expenses.ts:62-65 | deletes the ids and refetches the current page |
| ExpensesStore.Store.Hydrate | src/stores/expenses.ts:71-76 | the first page of the loaded expenses and their count |
| ExpensesStore.HydratedWindow | src/stores/expenses.ts:71-76 | hydrating gives min(10, n) items |
| SettingsStore.HydratedRatesKey | src/stores/settings.ts:21-22 | ratesApiKey when defined, else a non-empty fixerApiKey, else unchanged |
| SettingsStore.HydratedProvider | src/stores/settings.ts:23-24 | ratesProvider when defined; else fixerProvider 1 gives "apilayer", another value "fixer"; else unchanged |
| SettingsStore.ApplySpec | src/stores/settings.ts:32-42 | for each of the sixteen modelled fields, a supplied value overwrites and a missing one keeps; the empty patch changes nothing; applying twice is applying once; a later language wins |
| SettingsStore.Store.constructor | src/stores/settings.ts:10-17 | the initial values |
| SettingsStore.Store.Hydrate | src/stores/settings.ts:19-30 | absent fields leave values unchanged; the legacy key and provider mapping |
| SettingsStore.Store.UpdateSettings | src/stores/settings.ts:32-42 | a merge the schema rejects (a schedule outside the enum, an hour outside 0..23) throws and changes nothing; otherwise the patch applied and persisted, retranslation iff a language is given and not skipped |
| SettingsStore.Store.SetRatesConfig | src/stores/settings.ts:44-49 | the key and provider set and persisted |
| SettingsStore.Store.SetFixerApiKey | src/stores/settings.ts:51-56 | the key and provider set and persisted, the provider as text |
| SettingsStore.Store.SetTelegramConfig | src/stores/settings.ts:58-65 | token, chat id and flag set; the flag persisted as "1"/"0" |
| SettingsStore.EnabledFlag | src/stores/settings.ts:64 | "1" iff enabled, "0" iff not |
| SettingsStore.TelegramConfigSurvivesReload | src/stores/settings.ts:58-65 | a Telegram configuration that is set, read back from the config table as loadAllData does (database.ts lines 139-141) and hydrated into a fresh store, gives back the token, chat id and flag |
| SettingsStore.FixerProviderRoundTrip | src/stores/settings.ts:55 | the provider stored as text parses back to itself |
| SettingsStore.LegacyHydration | src/stores/settings.ts:21-24 | legacy fixer fields alone give the key and the provider name |
| Rates.ShouldUpdateRates | src/services/rates/index.ts:37-42 | true for an empty date, else iff at least 24 hours have passed |
| Rates.Targets | src/services/rates/index.ts:64-68 | exactly the listed currencies, or all when none listed, without the main one |
| Rates.RatesApplied | src/services/rates/index.ts:76-84 | same length |
| Rates.IndexOfId | src/services/rates/index.ts:61 | the first index with the id, or -1 |
| Rates.RatesAppliedSpec | src/services/rates/index.ts:76-84 | main rate 1; only rates change; a target with a fetched code takes that rate; others keep theirs |
| Rates.ApplyRates | src/services/rates/index.ts:76-83 | the loop sets exactly the fetched target rates in place and counts them |
| Rates.ApplyAndFixMain | src/services/rates/index.ts:76-84 | the array becomes RatesApplied and the count is UpdatedCount |
| Rates.UpdateCurrencyRates | src/services/rates/index.ts:49-95 | unknown provider or missing main: 0 and an error; no targets: 0 without fetching; a failed fetch: 0 with its error; no history is written on any of these; otherwise the rates applied, the count, and exactly the history writes of HistoryWrites |
| Rates.RecordHistory | src/services/rates/index.ts:74-89 | the writes are exactly HistoryWrites: nothing with history off, else one snapshot per updated target with its new rate, the main currency at 1, and a prune to historyDays or 90 |
| Rates.Snapshots | src/services/rates/index.ts:76-82 | every write is a snapshot, never of the main currency |
| Rates.SnapshotsMatchCount | src/services/rates/index.ts:76-82 | one snapshot per currency counted in `updated` |
| Rates.TargetApplied | src/services/rates/index.ts:77-78 | a target whose code came back holds the fetched rate |
| Rates.RequestFor | src/services/currencyUpdater.ts:34-43 | provider 1: apilayer URL with an apikey header; otherwise the fixer URL with access_key |
| Rates.CrossRated | src/services/currencyUpdater.ts:56-68 | a rate for every returned code |
| Rates.CrossRatedBaseIsOne | src/services/currencyUpdater.ts:56-68 | the base currency's rate becomes 1 and every rate is divided by the base's |
| Rates.FetchExchangeRates | src/services/currencyUpdater.ts:20-71 | no key: an error; no targets: {} without a request; a non-OK reply or success false: an error |
| Rates.UpdateFixerRates | src/services/currencyUpdater.ts:87-124 | missing main: 0 and an error without a request; otherwise the fetched rates applied, the count, and the main rate 1; failures give 0 and the error |
| Rates.UpdatedAtMostTargets | src/services/rates/index.ts:76-83 | never more updated than targets |
| Storage.LoadDecision | src/services/storage.ts:15-36 | seeding for a missing or uninitialized value; otherwise the validation result |
| Storage.InitializedObjectKept | src/services/storage.ts:19-35 | an initialized object is always kept, as parsed when it is schema-valid |
| Storage.ResetAfterValidation | src/services/storage.ts:27-33 | defaults are written iff validation returns null |
| Storage.Store.constructor | src/services/storage.ts:6 | the store is not yet open and holds what is on disk |
| Storage.Store.Open | src/services/storage.ts:8-13 | the store is open |
| Storage.Store.LoadAppData | src/services/storage.ts:15-36 | the validated data without a write, or the defaults written and returned |
| Storage.Store.SaveAppData | src/services/storage.ts:38-44 | stores the validated data, or the original when validation fails |
| Storage.Store.ResetAppData | src/services/storage.ts:46-52 | stores and returns the defaults |
| Storage.ResetThenLoad | src/services/storage.ts:15-52 | after a reset, loading gives the defaults back |
| LogoAssets.Bundle | src/services/logoAssets.ts:12-80 | one asset per table entry |
| LogoAssets.BundledPathIsImage | src/services/logoAssets.ts:84-86 | a bundled path counts as an image icon |
| LogoAssets.LogosAreImages | src/services/logoAssets.ts:12-86 | every path in the logo table is an image icon |
| LogoAssets.ImageIconCases | src/services/logoAssets.ts:84-86 | "/", "http", "https://" and "data:" prefixes are images; the default card emoji and "" are not |
| LogoAssets.ImageIconIff | src/services/logoAssets.ts:84-86 | an image icon iff it starts with "/", "http" or "data:" |

## Left out

- HTTP transport and JSON (de)serialisation are outcomes passed in: `Http<T>`, `Outcome<T>`, and parser functions in `Schema.Schemas`. The Drive file-id lookup is such an outcome too.
- The clock, UUIDs and the browser launch for OAuth consent are parameters (`now`, ids, `browserOpened`).
- Timers: the background check interval is a `polling` flag, and the database's upload debounce is a single pending slot. Concurrency between devices is not modelled. The await between the guard and the completion of a pull or push is modelled by splitting each into `TryBeginSync` and `Complete*`.
- src/services/sync/icloudProvider.ts is not part of this model: every operation is a native call.
- SQL query building and execution: only the effects on abstract tables that the properties need are modelled (delete cascade, tag batches, load/save of config, catalogs and records). Filters, aggregations, `LIKE` matching, sort order and the rate-history tables are left out. A history write is returned as a `HistoryOp` value instead.
- Floating point: prices and rates are `real`. Number formatting for CSV cells and Telegram amounts is a parameter (`priceText`).
- Calendar and time-zone arithmetic: dates are whole days of `DayMs` milliseconds. Date parsing is an `Option`: `None` where JavaScript gives NaN. getPricePerMonth, getPaymentDatesInMonth and everything in src/services/analytics.ts are left out.
- Calculations.DaysUntilPayment: an unparsable date gives `None`; the source returns NaN there, which its clamp does not catch.
- Calculations.SubscriptionProgress: an unparsable date gives `None`; the source returns NaN there, which its clamp does not catch.
- Database.SaveThenLoadRecords: the `ORDER BY date DESC` on payment records at load is not modelled, so histories come back in saved order; the source gives that order only when histories are already newest first.
- Database.SaveThenLoadCatalogs: the `ORDER BY sortOrder` on categories, currencies, household members, payment methods and tags at load (src/services/database.ts:105-109) is not modelled, so catalogs come back in saved order; the source gives that order only when each catalog is already sorted by its order, and SQLite leaves ties in no fixed order.
- Csv.MatchId: lower-casing is `LowerAscii`, which folds only A-Z. The source's `toLowerCase` folds every Unicode letter, so a cell "развлечения" matches a category "Развлечения" in the source but not in the model. The keyword tests of Csv.CycleOf, Csv.AutoRenewOf and Csv.InactiveOf use the same ASCII folding.
- Calculations.SubscriptionProgress: the percentage is the floor of the exact quotient elapsed·100/total. The source floors `(elapsed / total) * 100` in double precision, which can come out one lower (elapsed = 0.29·total gives 28 there and 29 here).
- Notifications.CheckAndNotify: the day difference `diffOf` is a whole number. In the source an unparsable nextPayment makes `diffDays` NaN, every comparison false, and no alert is raised; the model has no such value.
- Csv.CellsWithoutQuotes: states the field count (commas + 1) only for lines without quotes; lines with quoted cells are covered cell by cell by Csv.ScanCells and Csv.QuotedRowRoundTrip, with no count of their own.
- Field names: the Zod schemas call an item's position `order` (src/schemas/appData.ts:73,84,93,102,111), while the stores and database rows call it `sortOrder`. The model has one field, `sortOrder`, for both. The only place the mismatch is modelled is CatalogStore.ParsedNewTag (Findings row 2).
- Csv.CycleOf: `cycleMap` is a plain object, so a lookup also finds the keys it inherits. A cycle cell that lower-cases to "constructor" or "__proto__" finds `Object` or `Object.prototype`, which is truthy, and the source stores that non-number as the cycle. The model's table holds only the four cycle words and gives 3.
- Csv.ImportRow: its `1 <= cycle <= 4` does not hold in the source for the cycle cells "constructor" and "__proto__" (see Csv.CycleOf).
- ArchiveIcons.RestoredImage: `mimeMap` is a plain object too. A stored extension "constructor" or "__proto__" (an icon of type `image/constructor`) finds `Object` or `Object.prototype`, and the source writes that value's text as the mime type. ArchiveIcons.MimeFor gives image/png for them.
- Notifications.ApplyTemplateNoValues: `vars` is a plain object, so a placeholder that names a member of `Object.prototype` ({toString}, {constructor}, {valueOf}, {__proto__} and the others) is replaced by that member's text in the source even when no values are given. Notifications.ApplyTemplate keeps such a placeholder, as it keeps every unknown one.
- CatalogStore.Store.AddTag: appends the corrected NewTag, ordered maxOrder + 1. As written, addTag appends ParsedNewTag, ordered 0 (Findings row 2, CatalogStore.NewTagLosesOrder). With the seeded tags the program therefore lists the new tag first and the model lists it last.
- CatalogStore.Store.EnsureTag: adds the corrected NewTag for the same reason and with the same difference as CatalogStore.Store.AddTag.
- SubscriptionsStore.Store.RecordPayment: advanceNextPayment is a parameter, because it is calendar arithmetic.
- createExpenseFromPayment is left out.
- addCategory, addCurrency, addHouseholdMember and addPaymentMethod, and the update operations of currencies, household members and payment methods, are left out. Each is a push or an upsert. The four adds parse with the same `sortOrder`/`order` mismatch as addTag (Findings row 2).
- Schema.Settings: keeps the sixteen fields the modelled services read. It drops the other thirteen fields of SettingsSchema (appData.ts lines 124-157): darkTheme, colorTheme, monthlyPrice, convertCurrency, hideDisabled, disabledToBottom, showOriginalPrice, showSubscriptionProgress, budget, dashboardWidgets, subscriptionViewMode, subscriptionGroupBy and customColors. They are display preferences that no modelled operation reads, so updateSettings's schema checks on them (the darkTheme literals and the two view enums) are not modelled either.
- i18n: translation is a function parameter `t`. retranslateDefaults and setLanguage are represented only by the `retranslated` flag of `UpdateSettings`.
- Zod schema internals are functions `Raw -> Option<T>`. The default-filling of `safeParseObj` is part of that function.
- Issue paths are strings. A numeric path element is not modelled.
- Exceptions from adapters and uploads carry a message string. `String(e)` for non-Error values is not distinguished.
- JSZip and the byte conversion of icons are left out. An archive is modelled as the map importFromSubly builds from its `icons/` folder: each file's URI is rebuilt from its extension and the re-encoded payload. `btoa` after `atob` is the function parameter `reencode`.
- ArchiveIcons.SublyIconsRoundTrip: holds only for icons that come back as themselves (ComesBack). An icon whose type the mime table does not list comes back as image/png: `data:image/x-icon;base64,AAAA` is stored as `icon_0.x` and returns as `data:image/png;base64,AAAA` (IconTypeBecomesPng). Any parameters other than `;base64` are lost too. A payload that is not base64 makes `atob` throw during export. The model has no such failure, because `reencode` is total.
- Rates: the five network rate providers in src/services/rates/providers are a `Fetched` outcome. The currency array is one `array<Currency>`; aliasing with other references to it is not modelled.
- Duplicate ids in catalogs and subscriptions: the source does not prevent them. The model handles them as the source does (first match), but some lemmas assume distinct ids.
- The UI, router, tray, sound, push notifications, Tauri host and appStore orchestration are left out.
- The default data in src/services/seed.ts is a parameter (`seed`).

## Findings

| source | as written | input that shows it | evidently intended | confidence | as-written member | corrected member |
|---|---|---|---|---|---|---|
| src/services/export.ts:276-292 | the currency, category, payment method and payer names are written into the CSV line without quotes | a category named "Food, Drinks" reads back as 15 fields under 14 headers, so every later column shifts | every cell quoted and escaped like the name | high (not executed) | Csv.CategoryWithCommaShiftsColumns | Csv.CorrectedLineReadsBack |
| src/stores/catalog.ts:205-212 | addTag passes `sortOrder` to the tag schema, whose field is `order` (src/schemas/appData.ts:107-113), so the parsed tag gets the default order 0; addCategory (catalog.ts:51-56), addCurrency (88-94), addHouseholdMember (133-138) and addPaymentMethod (161-166) do the same with their schemas (appData.ts:73, 84, 93, 102), and only the tag case is modelled | existing tags with order up to 6: the new tag gets 0 instead of 7 and does not sort last | the new tag's order is maxOrder + 1 | high (not executed) | CatalogStore.NewTagLosesOrder | CatalogStore.NewTagComesLast |
| src/services/notifications.ts:140-142,222 | the notified stamp is the UTC date of local midnight, while alreadyNotifiedToday compares with the UTC date of now (lines 88-92) | at 10:00 local time in UTC+3 the stamp is yesterday's UTC date, so recurring reminders are sent again on every check that day | stamp and comparison use the same date | medium (not executed) | Notifications.SentAgainWhenStampLags | Notifications.NotifiedOncePerDay |
