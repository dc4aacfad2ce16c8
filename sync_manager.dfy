// The sync manager: which provider is active, the device identity, the
// local-change timestamp, and the last-writer-wins decision between the
// local data and the single remote file.
//
// The manager is a class over the module-level state of the source (config,
// the reactive status, the persisted "sync_config" entry, the background
// timer and the callbacks). What the active adapter answers (authenticated or
// not, what download/getRemoteMeta/upload settled to) enters each operation
// as a parameter; the adapters themselves are modelled in their own modules.
// An `await` is where another operation may run: pullRemote and pushLocal are
// split at their first suspension into TryBeginSync and the Complete* step,
// which is what the `syncing` guard protects.

module Sync {
  import opened Common
  import opened Schema
  import opened SyncTypes

  const SyncConfigKey: string := "sync_config"
  const CheckIntervalMs: int := 2 * 60000

  datatype Credentials = Credentials(
    gdriveClientId: string, gdriveClientSecret: string,
    dropboxAppKey: string, dropboxAppSecret: string,
    onedriveClientId: string,
    webdavUrl: string, webdavUsername: string, webdavPassword: string)

  datatype SyncConfig = SyncConfig(
    provider: Option<ProviderType>, enabled: bool, lastSynced: int, localUpdatedAt: int,
    deviceId: string, credentials: Credentials)

  datatype SyncStatus = SyncStatus(
    provider: Option<ProviderType>, enabled: bool, lastSynced: int, syncing: bool,
    error: Option<string>, remoteUpdatedAt: int, localUpdatedAt: int, pendingUpdate: bool)

  const NoCredentials := Credentials("", "", "", "", "", "", "", "")
  const DefaultConfig := SyncConfig(None, false, 0, 0, "", NoCredentials)
  const InitialStatus := SyncStatus(None, false, 0, false, None, 0, 0, false)

  // ---------------------------------------------------------------------
  // The last-writer-wins decision
  // ---------------------------------------------------------------------

  /** `updatedAt || lastSyncedAt || 0`. */
  function RemoteTimestamp(meta: SyncMeta): int
  {
    if meta.updatedAt != 0 then meta.updatedAt else meta.lastSyncedAt
  }

  /** A remote file is a pending update when it is newer than the local data
      and was written by another device. */
  predicate HasRemoteUpdate(meta: SyncMeta, localUpdatedAt: int, deviceId: string)
  {
    RemoteTimestamp(meta) > localUpdatedAt && meta.deviceId != deviceId
  }

  /** The meta a push writes: `updatedAt` is the local-change time, or the
      push time when nothing was recorded. */
  function PushedMeta(localUpdatedAt: int, now: int, deviceId: string): (m: SyncMeta)
    ensures m.deviceId == deviceId && m.lastSyncedAt == now
    ensures RemoteTimestamp(m) == if localUpdatedAt != 0 then localUpdatedAt else now
  {
    SyncMeta(now, if localUpdatedAt != 0 then localUpdatedAt else now, deviceId)
  }

  /** A device never treats its own upload as a pending update. */
  lemma OwnUploadNeverPending(localUpdatedAt: int, now: int, deviceId: string, laterLocal: int)
    ensures !HasRemoteUpdate(PushedMeta(localUpdatedAt, now, deviceId), laterLocal, deviceId)
  {
  }

  /** After a pull adopts the remote timestamp, the same remote file is no
      longer an update. */
  lemma PullSettlesRemote(meta: SyncMeta, deviceId: string)
    ensures !HasRemoteUpdate(meta, RemoteTimestamp(meta), deviceId)
  {
  }

  /** Another device whose local data is older than what was pushed sees the
      push as a pending update, and only then. */
  lemma OtherDeviceSeesNewerPush(localA: int, now: int, deviceA: string, localB: int, deviceB: string)
    requires deviceA != deviceB
    ensures HasRemoteUpdate(PushedMeta(localA, now, deviceA), localB, deviceB)
        <==> localB < (if localA != 0 then localA else now)
  {
  }

  /** The status checkRemote leaves behind. It consults the remote only when
      sync is on with a provider and the adapter is authenticated; a thrown
      getRemoteMeta changes nothing, a missing file clears the pending flag,
      and a found file records its timestamp and decides the pending flag. */
  function RemoteChecked(st: SyncStatus, c: SyncConfig, authed: bool, meta: Outcome<SyncMeta>): (r: SyncStatus)
    ensures r == st.(remoteUpdatedAt := r.remoteUpdatedAt, pendingUpdate := r.pendingUpdate)
    ensures var consulted := c.enabled && c.provider.Some? && authed && !meta.Threw?;
      && (r.pendingUpdate <==> if consulted then meta.Found? && HasRemoteUpdate(meta.value, c.localUpdatedAt, c.deviceId)
                               else st.pendingUpdate)
      && r.remoteUpdatedAt == if consulted && meta.Found? then RemoteTimestamp(meta.value) else st.remoteUpdatedAt
  {
    if !c.enabled || c.provider.None? || !authed || meta.Threw? then st
    else if meta.Absent? then st.(pendingUpdate := false)
    else st.(remoteUpdatedAt := RemoteTimestamp(meta.value),
             pendingUpdate := HasRemoteUpdate(meta.value, c.localUpdatedAt, c.deviceId))
  }

  // ---------------------------------------------------------------------
  // The manager
  // ---------------------------------------------------------------------

  class SyncManager {
    var config: SyncConfig
    var status: SyncStatus
    /** The "sync_config" entry of the config table. */
    var persisted: Option<SyncConfig>
    /** Whether the two-minute background check is scheduled. */
    var polling: bool
    /** Whether setSyncCallbacks has installed onDataReceived and getLocalData. */
    var callbacksSet: bool
    /** Every value handed to onDataReceived, in order. */
    var received: seq<AppData>

    /** The status mirrors the config's provider, flag and timestamps. */
    predicate Valid()
      reads this
    {
      status.provider == config.provider && status.enabled == config.enabled
      && status.lastSynced == config.lastSynced && status.localUpdatedAt == config.localUpdatedAt
    }

    /** The guard shared by pullRemote, pushLocal and syncNow. */
    predicate CanSync()
      reads this
    {
      config.enabled && config.provider.Some? && !status.syncing
    }

    /** Module load: defaults in memory, over whatever the config table holds. */
    constructor (persisted: Option<SyncConfig>)
      ensures Valid() && !polling && !callbacksSet && received == []
      ensures config == DefaultConfig && status == InitialStatus && this.persisted == persisted
    {
      config := DefaultConfig;
      status := InitialStatus;
      this.persisted := persisted;
      polling := false;
      callbacksSet := false;
      received := [];
    }

    method SetSyncCallbacks()
      modifies this`callbacksSet
      ensures callbacksSet
    {
      callbacksSet := true;
    }

    /** Records a local change (called by every database write). */
    method SetLocalUpdatedAt(ts: int)
      requires Valid()
      modifies this`config, this`status
      ensures Valid()
      ensures config == old(config).(localUpdatedAt := ts)
      ensures status == old(status).(localUpdatedAt := ts)
    {
      config := config.(localUpdatedAt := ts);
      status := status.(localUpdatedAt := ts);
    }

    method StartBackgroundCheck()
      modifies this`polling
      ensures polling
    {
      polling := true;
    }

    method StopBackgroundCheck()
      modifies this`polling
      ensures !polling
    {
      polling := false;
    }

    method DismissPendingUpdate()
      modifies this`status
      ensures status == old(status).(pendingUpdate := false)
    {
      status := status.(pendingUpdate := false);
    }

    /** handleOAuthCode: routed to the active adapter when it has a code
        exchange (Google Drive, Dropbox, OneDrive); `exchanged` is its answer. */
    function HandleOAuthCode(exchanged: bool): (ok: bool)
      reads this
      ensures ok ==> config.provider.Some? && config.provider.value in {GDrive, Dropbox, OneDrive}
      ensures config.provider.Some? && config.provider.value in {GDrive, Dropbox, OneDrive} ==> ok == exchanged
    {
      match config.provider
      case None => false
      case Some(p) => if p == GDrive || p == Dropbox || p == OneDrive then exchanged else false
    }

    /** checkRemote: compares the remote meta with the local state and sets
        the pending flag. `authed` is the adapter's isAuthenticated and `meta`
        what getRemoteMeta settled to. */
    method CheckRemote(authed: bool, meta: Outcome<SyncMeta>) returns (pending: bool)
      requires Valid()
      modifies this`status
      ensures Valid()
      ensures pending <==> config.enabled && config.provider.Some? && authed && meta.Found?
                           && HasRemoteUpdate(meta.value, config.localUpdatedAt, config.deviceId)
      ensures status == RemoteChecked(old(status), config, authed, meta)
    {
      if !config.enabled || config.provider.None? {
        return false;
      }
      if !authed {
        return false;
      }
      match meta
      case Threw(_) =>
        return false;
      case Absent =>
        status := status.(pendingUpdate := false);
        return false;
      case Found(m) =>
        var remoteTs := RemoteTimestamp(m);
        status := status.(remoteUpdatedAt := remoteTs);
        if remoteTs > config.localUpdatedAt && m.deviceId != config.deviceId {
          status := status.(pendingUpdate := true);
          return true;
        }
        status := status.(pendingUpdate := false);
        return false;
    }

    /** initSync: loads the saved config over the defaults, gives the device an
        identity once ("dev_" and eight characters of a fresh UUID), mirrors the
        config into the status and, when sync is on, checks the remote and
        starts polling. */
    method InitSync(uuid: string, authed: bool, meta: Outcome<SyncMeta>)
      requires Valid() && |uuid| >= 8
      modifies this`config, this`status, this`persisted, this`polling
      ensures Valid()
      ensures var loaded := if old(persisted).Some? then old(persisted).value else old(config);
        && config == (if loaded.deviceId == [] then loaded.(deviceId := "dev_" + uuid[..8]) else loaded)
        && persisted == (if loaded.deviceId == [] then Some(config) else old(persisted))
      ensures config.deviceId != []
      ensures polling == (old(polling) || (config.enabled && config.provider.Some?))
      ensures var mirrored := old(status).(provider := config.provider, enabled := config.enabled,
                                           lastSynced := config.lastSynced, localUpdatedAt := config.localUpdatedAt);
        status == if config.enabled && config.provider.Some? then RemoteChecked(mirrored, config, authed, meta)
                  else mirrored
    {
      if persisted.Some? {
        config := persisted.value;
      }
      if config.deviceId == [] {
        config := config.(deviceId := "dev_" + uuid[..8]);
        persisted := Some(config);
      }
      status := status.(provider := config.provider, enabled := config.enabled,
                        lastSynced := config.lastSynced, localUpdatedAt := config.localUpdatedAt);
      if config.enabled && config.provider.Some? {
        var _ := CheckRemote(authed, meta);
        StartBackgroundCheck();
      }
    }

    /** setProviderCredentials: a missing credential is stored as "". */
    method SetProviderCredentials(p: ProviderType, given: map<string, string>)
      modifies this`config, this`persisted
      ensures var c := old(config).credentials;
        config.credentials == (
          match p
          case GDrive => c.(gdriveClientId := Lookup(given, "clientId"), gdriveClientSecret := Lookup(given, "clientSecret"))
          case Dropbox => c.(dropboxAppKey := Lookup(given, "appKey"), dropboxAppSecret := Lookup(given, "appSecret"))
          case OneDrive => c.(onedriveClientId := Lookup(given, "clientId"))
          case WebDav => c.(webdavUrl := Lookup(given, "serverUrl"), webdavUsername := Lookup(given, "username"),
                            webdavPassword := Lookup(given, "password"))
          case ICloud => c)
      ensures config == old(config).(credentials := config.credentials)
      ensures persisted == Some(config)
    {
      var c := config.credentials;
      match p {
        case GDrive =>
          c := c.(gdriveClientId := Lookup(given, "clientId"), gdriveClientSecret := Lookup(given, "clientSecret"));
        case Dropbox =>
          c := c.(dropboxAppKey := Lookup(given, "appKey"), dropboxAppSecret := Lookup(given, "appSecret"));
        case OneDrive =>
          c := c.(onedriveClientId := Lookup(given, "clientId"));
        case WebDav =>
          c := c.(webdavUrl := Lookup(given, "serverUrl"), webdavUsername := Lookup(given, "username"),
                  webdavPassword := Lookup(given, "password"));
        case ICloud =>
      }
      config := config.(credentials := c);
      persisted := Some(config);
    }

    /** enableSync: refuses an unavailable adapter and an unauthenticated one
        whose consent flow cannot start; otherwise makes it the active
        provider, persists, starts polling and checks the remote. */
    method EnableSync(p: ProviderType, available: bool, authed: bool, consentStarted: bool,
                      checkAuthed: bool, meta: Outcome<SyncMeta>) returns (ok: bool)
      requires Valid()
      modifies this`config, this`status, this`persisted, this`polling
      ensures Valid()
      ensures ok <==> available && (authed || consentStarted)
      ensures ok ==> config == old(config).(provider := Some(p), enabled := true)
                     && persisted == Some(config) && polling
                     && status == RemoteChecked(old(status).(provider := Some(p), enabled := true, error := None),
                                                config, checkAuthed, meta)
      ensures !ok ==> config == old(config) && status == old(status) && persisted == old(persisted)
                      && polling == old(polling)
    {
      if !available {
        return false;
      }
      if !authed && !consentStarted {
        return false;
      }
      config := config.(provider := Some(p), enabled := true);
      status := status.(provider := Some(p), enabled := true, error := None);
      persisted := Some(config);
      StartBackgroundCheck();
      var _ := CheckRemote(checkAuthed, meta);
      return true;
    }

    /** disableSync: stops polling, disconnects the active adapter (its
        failure is ignored) and forgets the provider and the remote state. */
    method DisableSync() returns (disconnected: Option<ProviderType>)
      requires Valid()
      modifies this`config, this`status, this`persisted, this`polling
      ensures Valid()
      ensures disconnected == old(config.provider)
      ensures config == old(config).(provider := None, enabled := false)
      ensures status == old(status).(provider := None, enabled := false, error := None,
                                     pendingUpdate := false, remoteUpdatedAt := 0)
      ensures persisted == Some(config) && !polling
    {
      StopBackgroundCheck();
      disconnected := config.provider;
      config := config.(provider := None, enabled := false);
      status := status.(provider := None, enabled := false, error := None, pendingUpdate := false, remoteUpdatedAt := 0);
      persisted := Some(config);
    }

    /** The synchronous prefix of pullRemote and pushLocal: the guard, then
        `syncing` is raised and the error cleared before the first await. */
    method TryBeginSync() returns (started: bool)
      requires Valid()
      modifies this`status
      ensures Valid()
      ensures started == old(CanSync())
      ensures started ==> status == old(status).(syncing := true, error := None)
      ensures !started ==> status == old(status)
    {
      if !CanSync() {
        return false;
      }
      status := status.(syncing := true, error := None);
      return true;
    }

    /** The rest of pullRemote, after the guard: download, validate, hand the
        data to the app and adopt the remote timestamp. `syncing` is lowered
        on every path (the `finally`). */
    method CompletePull(authed: bool, remote: Outcome<SyncPayload>, validate: Raw -> Option<AppData>, now: int)
      returns (ok: bool)
      requires Valid() && status.syncing
      modifies this`config, this`status, this`persisted, this`received
      ensures Valid() && !status.syncing
      ensures ok <==> authed && remote.Found? && Truthy(remote.value.data) && validate(remote.value.data).Some?
      ensures ok ==>
        var ts := RemoteTimestamp(remote.value.meta);
        && config == old(config).(lastSynced := now, localUpdatedAt := ts)
        && status == old(status).(syncing := false, lastSynced := now, localUpdatedAt := ts,
                                  pendingUpdate := false, remoteUpdatedAt := ts)
        && persisted == Some(config)
        && received == old(received) + (if callbacksSet then [validate(remote.value.data).value] else [])
      ensures !ok ==>
        && config == old(config) && persisted == old(persisted) && received == old(received)
        && status == old(status).(syncing := false,
                                  error := if !authed then Some("Not authenticated")
                                           else if remote.Threw? then Some(remote.message)
                                           else old(status).error)
    {
      if !authed {
        status := status.(error := Some("Not authenticated"), syncing := false);
        return false;
      }
      match remote
      case Threw(e) =>
        status := status.(error := Some(e), syncing := false);
        return false;
      case Absent =>
        status := status.(syncing := false);
        return false;
      case Found(payload) =>
        if !Truthy(payload.data) {
          status := status.(syncing := false);
          return false;
        }
        var validated := validate(payload.data);
        if validated.None? {
          status := status.(syncing := false);
          return false;
        }
        var remoteTs := RemoteTimestamp(payload.meta);
        if callbacksSet {
          received := received + [validated.value];
        }
        config := config.(lastSynced := now, localUpdatedAt := remoteTs);
        status := status.(lastSynced := now, localUpdatedAt := remoteTs, pendingUpdate := false,
                          remoteUpdatedAt := remoteTs);
        persisted := Some(config);
        status := status.(syncing := false);
        return true;
    }

    /** The rest of pushLocal, after the guard: build the payload from the
        local data and upload it. `local` is what getLocalData returns and
        `upload` what the adapter's upload settled to. */
    method CompletePush(authed: bool, local: Raw, now: int, upload: Completion)
      returns (ok: bool, sent: Option<SyncPayload>)
      requires Valid() && status.syncing
      modifies this`config, this`status, this`persisted
      ensures Valid() && !status.syncing
      ensures sent.Some? <==> authed && callbacksSet && Truthy(local)
      ensures sent.Some? ==> sent.value == SyncPayload(local, PushedMeta(config.localUpdatedAt, now, config.deviceId))
      ensures ok <==> sent.Some? && upload.Done?
      ensures ok ==>
        && config == old(config).(lastSynced := now)
        && status == old(status).(syncing := false, lastSynced := now, pendingUpdate := false,
                                  remoteUpdatedAt := RemoteTimestamp(sent.value.meta))
        && persisted == Some(config)
      ensures !ok ==>
        && config == old(config) && persisted == old(persisted)
        && status == old(status).(syncing := false,
                                  error := if !authed then Some("Not authenticated")
                                           else if sent.Some? && upload.Failed? then Some(upload.message)
                                           else old(status).error)
    {
      if !authed {
        status := status.(error := Some("Not authenticated"), syncing := false);
        return false, None;
      }
      if !callbacksSet || !Truthy(local) {
        status := status.(syncing := false);
        return false, None;
      }
      var meta := PushedMeta(config.localUpdatedAt, now, config.deviceId);
      var payload := SyncPayload(local, meta);
      sent := Some(payload);
      match upload
      case Failed(e) =>
        status := status.(error := Some(e), syncing := false);
        return false, sent;
      case Done =>
        config := config.(lastSynced := now);
        status := status.(lastSynced := now, remoteUpdatedAt := meta.updatedAt, pendingUpdate := false);
        persisted := Some(config);
        status := status.(syncing := false);
        return true, sent;
    }

    /** pullRemote (user confirmed a pending update). */
    method PullRemote(authed: bool, remote: Outcome<SyncPayload>, validate: Raw -> Option<AppData>, now: int)
      returns (ok: bool)
      requires Valid()
      modifies this`config, this`status, this`persisted, this`received
      ensures Valid()
      ensures !old(CanSync()) ==> !ok && config == old(config) && status == old(status)
                                  && persisted == old(persisted) && received == old(received)
      ensures old(CanSync()) ==> !status.syncing
      ensures ok <==> old(CanSync()) && authed && remote.Found? && Truthy(remote.value.data)
                      && validate(remote.value.data).Some?
      ensures ok ==>
        var ts := RemoteTimestamp(remote.value.meta);
        && config == old(config).(lastSynced := now, localUpdatedAt := ts)
        && status == old(status).(error := None, lastSynced := now, localUpdatedAt := ts,
                                  pendingUpdate := false, remoteUpdatedAt := ts)
        && persisted == Some(config)
        && received == old(received) + (if callbacksSet then [validate(remote.value.data).value] else [])
      ensures old(CanSync()) && !ok ==>
        && config == old(config) && persisted == old(persisted) && received == old(received)
        && status == old(status).(error := if !authed then Some("Not authenticated")
                                           else if remote.Threw? then Some(remote.message)
                                           else None)
    {
      var started := TryBeginSync();
      if !started {
        return false;
      }
      ok := CompletePull(authed, remote, validate, now);
    }

    /** pushLocal, and uploadNow which is the same call. */
    method PushLocal(authed: bool, local: Raw, now: int, upload: Completion) returns (ok: bool, sent: Option<SyncPayload>)
      requires Valid()
      modifies this`config, this`status, this`persisted
      ensures Valid()
      ensures !old(CanSync()) ==> !ok && sent.None? && config == old(config) && status == old(status)
                                  && persisted == old(persisted)
      ensures old(CanSync()) ==> !status.syncing
      ensures sent.Some? <==> old(CanSync()) && authed && callbacksSet && Truthy(local)
      ensures sent.Some? ==> sent.value == SyncPayload(local, PushedMeta(old(config).localUpdatedAt, now, old(config).deviceId))
      ensures ok <==> sent.Some? && upload.Done?
      ensures ok ==>
        && config == old(config).(lastSynced := now)
        && status == old(status).(error := None, lastSynced := now, pendingUpdate := false,
                                  remoteUpdatedAt := RemoteTimestamp(sent.value.meta))
        && persisted == Some(config)
      ensures old(CanSync()) && !ok ==>
        && config == old(config) && persisted == old(persisted)
        && status == old(status).(error := if !authed then Some("Not authenticated")
                                           else if sent.Some? && upload.Failed? then Some(upload.message)
                                           else None)
    {
      var started := TryBeginSync();
      if !started {
        return false, None;
      }
      ok, sent := CompletePush(authed, local, now, upload);
    }

    /** syncNow: a remote update pre-empts the push (the caller asks the user
        instead); otherwise the local data is pushed. */
    method SyncNow(checkAuthed: bool, meta: Outcome<SyncMeta>, pushAuthed: bool, local: Raw, now: int, upload: Completion)
      returns (ok: bool, sent: Option<SyncPayload>)
      requires Valid()
      modifies this`config, this`status, this`persisted
      ensures Valid()
      ensures !old(CanSync()) ==> !ok && sent.None? && config == old(config) && status == old(status)
                                  && persisted == old(persisted)
      ensures var pending := old(CanSync()) && checkAuthed && meta.Found?
                             && HasRemoteUpdate(meta.value, old(config).localUpdatedAt, old(config).deviceId);
        pending ==> !ok && sent.None? && config == old(config) && persisted == old(persisted)
                    && status == RemoteChecked(old(status), old(config), checkAuthed, meta) && status.pendingUpdate
      ensures var pending := old(CanSync()) && checkAuthed && meta.Found?
                             && HasRemoteUpdate(meta.value, old(config).localUpdatedAt, old(config).deviceId);
        old(CanSync()) && !pending ==>
          && (sent.Some? <==> pushAuthed && callbacksSet && Truthy(local))
          && (sent.Some? ==> sent.value == SyncPayload(local, PushedMeta(old(config).localUpdatedAt, now, old(config).deviceId)))
          && (ok <==> sent.Some? && upload.Done?)
      ensures var checked := RemoteChecked(old(status), old(config), checkAuthed, meta);
        ok ==> && config == old(config).(lastSynced := now) && persisted == Some(config)
               && status == checked.(error := None, lastSynced := now, pendingUpdate := false,
                                     remoteUpdatedAt := RemoteTimestamp(sent.value.meta))
      ensures var pending := old(CanSync()) && checkAuthed && meta.Found?
                             && HasRemoteUpdate(meta.value, old(config).localUpdatedAt, old(config).deviceId);
        var checked := RemoteChecked(old(status), old(config), checkAuthed, meta);
        old(CanSync()) && !pending && !ok ==>
          && config == old(config) && persisted == old(persisted)
          && status == checked.(error := if !pushAuthed then Some("Not authenticated")
                                         else if sent.Some? && upload.Failed? then Some(upload.message)
                                         else None)
    {
      if !CanSync() {
        return false, None;
      }
      var pending := CheckRemote(checkAuthed, meta);
      if pending {
        return false, None;
      }
      ok, sent := PushLocal(pushAuthed, local, now, upload);
    }

    /** One firing of the background timer. */
    method BackgroundTick(authed: bool, meta: Outcome<SyncMeta>) returns (pending: bool)
      requires Valid() && polling
      modifies this`status
      ensures Valid()
      ensures pending <==> config.enabled && config.provider.Some? && authed && meta.Found?
                           && HasRemoteUpdate(meta.value, config.localUpdatedAt, config.deviceId)
      ensures status == RemoteChecked(old(status), config, authed, meta)
    {
      pending := CheckRemote(authed, meta);
    }
  }

  /** `credentials.x || ""`. */
  function Lookup(given: map<string, string>, key: string): string
  {
    if key in given then given[key] else ""
  }

  /** While a pull is suspended after its guard, a push, another pull and
      syncNow all return false without touching anything. */
  method InFlightExcludesOthers(m: SyncManager, local: Raw, now: int, upload: Completion, meta: Outcome<SyncMeta>)
    returns (started: bool, pushed: bool, synced: bool)
    requires m.Valid() && m.CanSync()
    modifies m
    ensures started && !pushed && !synced
    ensures m.status == old(m.status).(syncing := true, error := None)
    ensures m.config == old(m.config) && m.persisted == old(m.persisted)
  {
    started := m.TryBeginSync();
    var sent, sent2;
    pushed, sent := m.PushLocal(true, local, now, upload);
    synced, sent2 := m.SyncNow(true, meta, true, local, now, upload);
  }

  /** The device that pushed a file does not see it as an update. */
  method OwnPushNotPending(a: SyncManager, data: Raw, now: int) returns (pushed: bool, pending: bool)
    requires a.Valid() && a.CanSync() && a.callbacksSet && Truthy(data)
    modifies a
    ensures pushed && !pending && !a.status.pendingUpdate
  {
    var sent;
    pushed, sent := a.PushLocal(true, data, now, Done);
    pending := a.CheckRemote(true, Found(sent.value.meta));
  }

  /** A successful syncNow leaves the device with nothing pending: the next
      check of the file it uploaded does not count it as an update. */
  method SyncNowThenCheck(m: SyncManager, checkAuthed: bool, meta: Outcome<SyncMeta>, local: Raw, now: int)
    returns (ok: bool, pendingAfter: bool)
    requires m.Valid()
    modifies m
    ensures m.Valid()
    ensures ok ==> !pendingAfter && !m.status.pendingUpdate
  {
    var sent;
    ok, sent := m.SyncNow(checkAuthed, meta, true, local, now, Done);
    if ok {
      pendingAfter := m.CheckRemote(true, Found(sent.value.meta));
    } else {
      pendingAfter := m.status.pendingUpdate;
    }
  }

  /** Another device sees a newer file as pending, pulls it, hands it to the
      app, and afterwards no longer sees it as pending. */
  method PulledUpdateSettles(b: SyncManager, file: SyncPayload, validate: Raw -> Option<AppData>, now: int)
    returns (seen: bool, pulled: bool, again: bool)
    requires b.Valid() && b.CanSync() && b.callbacksSet
    requires Truthy(file.data) && validate(file.data).Some?
    requires HasRemoteUpdate(file.meta, b.config.localUpdatedAt, b.config.deviceId)
    modifies b
    ensures seen && pulled && !again && !b.status.pendingUpdate
    ensures b.received == old(b.received) + [validate(file.data).value]
  {
    seen := b.CheckRemote(true, Found(file.meta));
    pulled := b.PullRemote(true, Found(file), validate, now);
    again := b.CheckRemote(true, Found(file.meta));
  }
}
