/**
 * The session engine (index.js:75-363): the state kept between hook calls,
 * the lifecycle hooks, the two kinds of settings-packet handlers, and the
 * `settings` command with its subcommands. Only report mode exists: the
 * handlers emit notices and always let the packet through.
 */
module Engine {
  import opened Wrappers
  import opened Codec
  import opened Names
  import opened Documents
  import opened Messages
  import opened Reconcile
  import opened Reapply
  import opened Commands

  /** Reading the file at `path` throws (it exists but cannot be read). */
  predicate ReadThrows(files: Files, path: string) {
    path in files && files[path] == Unreadable
  }

  /** The check at index.js:150 asks for a new file: it does not exist, or holds only white space. */
  predicate NeedsNewFile(files: Files, path: string) {
    path !in files || files[path] == Blank
  }

  class SettingsSaver {
    var charSettingsFilePath: Option<string>
    var onDiskSettings: SettingsDocument
    var liveClientSettings: LiveSettings
    var isInGame: bool
    var initialClientSettingsReceived: bool
    /** The data directory. */
    var files: Files
    /** Everything sent to the user and injected into the client, oldest first. */
    var outbox: seq<Output>

    /**
     * A bound character file is a non-empty path, and the initial sync is
     * only ever marked complete for it once both kinds have been observed.
     */
    ghost predicate Valid()
      reads this
    {
      && (charSettingsFilePath.Some? ==> charSettingsFilePath.value != [])
      && (initialClientSettingsReceived && charSettingsFilePath.Some? ==> liveClientSettings.IsComplete())
    }

    /** The gate in front of every subcommand (index.js:235). */
    predicate Ready()
      reads this
    {
      isInGame && IsPresent(charSettingsFilePath)
    }

    /** The state when the module is loaded (index.js:77-83). */
    constructor (disk: Files)
      ensures Valid()
      ensures charSettingsFilePath == None && onDiskSettings == DefaultDocument
      ensures liveClientSettings == NoLiveSettings
      ensures !isInGame && !initialClientSettingsReceived
      ensures files == disk && outbox == []
    {
      charSettingsFilePath := None;
      onDiskSettings := LoadSettings(disk, None);
      liveClientSettings := NoLiveSettings;
      isInGame := false;
      initialClientSettingsReceived := false;
      files := disk;
      outbox := [];
    }

    /**
     * enter_game: bind the character file, load it, create it when it is
     * missing or blank, and reset the session. When reading the file throws,
     * the catch block leaves no character file and a locked empty document.
     */
    method EnterGame(name: Option<string>, serverId: Option<string>, write: WriteOutcome)
      requires Valid()
      modifies this
      ensures Valid()
      ensures liveClientSettings == NoLiveSettings && !isInGame && outbox == old(outbox)
      ensures var path := CharacterFile(name, serverId);
              if ReadThrows(old(files), path) then
                && charSettingsFilePath == None
                && onDiskSettings == LockedDocument
                && files == old(files)
                && initialClientSettingsReceived == old(initialClientSettingsReceived)
              else
                && charSettingsFilePath == Some(path)
                && onDiskSettings == LoadSettings(old(files), Some(path))
                && files == (if NeedsNewFile(old(files), path)
                             then SaveSettings(old(files), Some(path), DefaultDocument, write).files
                             else old(files))
                && !initialClientSettingsReceived
      ensures charSettingsFilePath.Some? ==> LoadSettings(files, charSettingsFilePath) == onDiskSettings
    {
      var path := CharacterFile(name, serverId);
      charSettingsFilePath := Some(path);
      onDiskSettings := LoadSettings(files, charSettingsFilePath);
      if ReadThrows(files, path) {
        charSettingsFilePath := None;
        onDiskSettings := LockedDocument;
        liveClientSettings := NoLiveSettings;
        isInGame := false;
        return;
      }
      if NeedsNewFile(files, path) {
        var saved := SaveSettings(files, charSettingsFilePath, onDiskSettings, write);
        files := saved.files;
      }
      liveClientSettings := NoLiveSettings;
      initialClientSettingsReceived := false;
      isInGame := false;
    }

    /** C_LOAD_TOPO_FIN: the client is fully in game. */
    method TopologyLoaded()
      requires Valid()
      modifies this`isInGame
      ensures Valid() && isInGame
    {
      isInGame := true;
    }

    /** C_RETURN_TO_LOBBY / S_RETURN_TO_LOBBY: leave the game; the character file and live cache are kept. */
    method ReturnToLobby()
      requires Valid()
      modifies this`isInGame, this`initialClientSettingsReceived
      ensures Valid() && !isInGame && !initialClientSettingsReceived
    {
      isInGame := false;
      initialClientSettingsReceived := false;
    }

    /**
     * S_LOAD_CLIENT_ACCOUNT_SETTING / S_LOAD_CLIENT_USER_SETTING
     * (handleIncomingClientSettings).
     */
    method OnServerSettings(kind: Kind, buffer: seq<byte>, isFake: bool) returns (passThrough: bool)
      requires Valid()
      modifies this`liveClientSettings, this`initialClientSettingsReceived, this`outbox
      ensures Valid() && passThrough
      ensures !isInGame || isFake || !IsPresent(charSettingsFilePath) ==>
                && liveClientSettings == old(liveClientSettings)
                && initialClientSettingsReceived == old(initialClientSettingsReceived)
                && outbox == old(outbox)
      ensures isInGame && !isFake && IsPresent(charSettingsFilePath) ==>
                && liveClientSettings == old(liveClientSettings).Set(kind, Some(ParseRawPacketData(buffer)))
                && (initialClientSettingsReceived <==>
                      old(initialClientSettingsReceived) || liveClientSettings.IsComplete())
                && outbox == old(outbox) +
                     if !old(initialClientSettingsReceived) && liveClientSettings.IsComplete()
                     then InitialSyncNotices(liveClientSettings, onDiskSettings)
                     else if old(initialClientSettingsReceived)
                     then DriftNotices(kind, liveClientSettings, onDiskSettings)
                     else []
    {
      passThrough := true;
      if !isInGame || isFake {
        return;
      }
      if !IsPresent(charSettingsFilePath) {
        return;
      }
      liveClientSettings := liveClientSettings.Set(kind, Some(ParseRawPacketData(buffer)));
      ReportServerSettings(kind);
    }

    /** The report that follows a server update: the first-sync report once both kinds are known, drift after it. */
    method ReportServerSettings(kind: Kind)
      requires IsPresent(charSettingsFilePath) && liveClientSettings.Get(kind).Some?
      requires initialClientSettingsReceived ==> liveClientSettings.IsComplete()
      modifies this`initialClientSettingsReceived, this`outbox
      ensures Valid()
      ensures initialClientSettingsReceived <==> old(initialClientSettingsReceived) || liveClientSettings.IsComplete()
      ensures outbox == old(outbox) +
                if !old(initialClientSettingsReceived) && liveClientSettings.IsComplete()
                then InitialSyncNotices(liveClientSettings, onDiskSettings)
                else if old(initialClientSettingsReceived)
                then DriftNotices(kind, liveClientSettings, onDiskSettings)
                else []
    {
      if liveClientSettings.IsComplete() && !initialClientSettingsReceived {
        initialClientSettingsReceived := true;
        outbox := outbox + InitialSyncNotices(liveClientSettings, onDiskSettings);
      } else if initialClientSettingsReceived {
        outbox := outbox + DriftNotices(kind, liveClientSettings, onDiskSettings);
      }
    }

    /**
     * C_SAVE_CLIENT_ACCOUNT_SETTING / C_SAVE_CLIENT_USER_SETTING
     * (handleClientInitiatedSave): the live cache follows the client; the
     * document is never written here.
     */
    method OnClientSave(kind: Kind, buffer: seq<byte>, isFake: bool) returns (passThrough: bool)
      requires Valid()
      modifies this`liveClientSettings, this`outbox
      ensures Valid() && passThrough
      ensures !isInGame || isFake ==>
                liveClientSettings == old(liveClientSettings) && outbox == old(outbox)
      ensures isInGame && !isFake ==>
                && liveClientSettings == old(liveClientSettings).Set(kind, Some(ParseRawPacketData(buffer)))
                && outbox == old(outbox) +
                     ClientChangeNotices(kind, liveClientSettings, onDiskSettings, initialClientSettingsReceived)
    {
      passThrough := true;
      if !isInGame || isFake {
        return;
      }
      liveClientSettings := liveClientSettings.Set(kind, Some(ParseRawPacketData(buffer)));
      outbox := outbox + ClientChangeNotices(kind, liveClientSettings, onDiskSettings, initialClientSettingsReceived);
    }

    /** applySettingsDataToClient */
    method ApplyToClient(kind: Kind)
      modifies this`outbox
      ensures outbox == old(outbox) + ApplyOutputs(onDiskSettings, kind)
    {
      outbox := outbox + ApplyOutputs(onDiskSettings, kind);
    }

    /** reloadAllSettingsToClient: Account now, User after the pause. */
    method ReloadAllToClient()
      modifies this`outbox
      ensures outbox == old(outbox) + ReloadOutputs(onDiskSettings)
    {
      ghost var before := outbox;
      ApplyToClient(Account);
      outbox := outbox + [Delay(ReapplyDelayMs)];
      ApplyToClient(User);
      assert outbox == before + (ApplyOutputs(onDiskSettings, Account) + [Delay(ReapplyDelayMs)]
                                 + ApplyOutputs(onDiskSettings, User));
    }

    /**
     * The `settings` command: refused unless in game with a character file;
     * otherwise the subcommand chosen by ParseCommand runs, with the effect
     * its own method states.
     */
    method Settings(arg1: Option<string>, arg2: Option<string>, write: WriteOutcome)
      requires Valid()
      modifies this
      ensures Valid()
      ensures charSettingsFilePath == old(charSettingsFilePath)
      ensures liveClientSettings == old(liveClientSettings)
      ensures isInGame == old(isInGame)
      ensures initialClientSettingsReceived == old(initialClientSettingsReceived)
      ensures !old(Ready()) ==>
                && onDiskSettings == old(onDiskSettings)
                && files == old(files)
                && outbox == old(outbox) + [Message(NotReady)]
      // settings (no subcommand, or an unknown one): the help text only
      ensures old(Ready()) && ParseCommand(arg1, arg2) == ShowHelp ==>
                && onDiskSettings == old(onDiskSettings) && files == old(files)
                && outbox == old(outbox) + [Message(Usage(Help))]
      // settings status: the report only
      ensures old(Ready()) && ParseCommand(arg1, arg2) == Status ==>
                && onDiskSettings == old(onDiskSettings) && files == old(files)
                && outbox == old(outbox) +
                     [Message(StatusLines(StatusOf(charSettingsFilePath, onDiskSettings, liveClientSettings,
                                              initialClientSettingsReceived, isInGame)))]
      // settings reload: the document is reapplied and nothing is written
      ensures old(Ready()) && ParseCommand(arg1, arg2) == Reload ==>
                && onDiskSettings == old(onDiskSettings) && files == old(files)
                && outbox == old(outbox) + [Message(Reloading)] + ReloadOutputs(onDiskSettings)
      // settings lock: flipped in memory, then written
      ensures old(Ready()) && ParseCommand(arg1, arg2) == Lock ==>
                && onDiskSettings == old(onDiskSettings).(lock := !old(onDiskSettings.lock))
                && var saved := SaveSettings(old(files), charSettingsFilePath, onDiskSettings, write);
                   && files == saved.files
                   && outbox == old(outbox) +
                        [Message(if saved.ok then LockState(onDiskSettings.lock) else LockUpdateFailed)]
      // settings save
      ensures old(Ready()) && ParseCommand(arg1, arg2) == Save && old(onDiskSettings.lock) ==>
                && onDiskSettings == old(onDiskSettings) && files == old(files)
                && outbox == old(outbox) + [Message(SaveLocked)]
      ensures old(Ready()) && ParseCommand(arg1, arg2) == Save && !old(onDiskSettings.lock)
              && !initialClientSettingsReceived ==>
                && onDiskSettings == old(onDiskSettings) && files == old(files)
                && outbox == old(outbox) + [Message(NotCaptured)]
      ensures old(Ready()) && ParseCommand(arg1, arg2) == Save && !old(onDiskSettings.lock)
              && initialClientSettingsReceived ==>
                var snapshot := SettingsDocument(false, liveClientSettings.accountSettings, liveClientSettings.userSettings);
                var saved := SaveSettings(old(files), charSettingsFilePath, snapshot, write);
                && files == saved.files
                && onDiskSettings == (if saved.ok then snapshot else old(onDiskSettings))
                && outbox == old(outbox) + [Message(if saved.ok then Saved else SaveFailed)]
      // settings saveas <profile>: only the profile file may change, whatever the lock
      ensures old(Ready()) && ParseCommand(arg1, arg2).SaveAs? ==>
                var profile := ParseCommand(arg1, arg2).profile;
                && onDiskSettings == old(onDiskSettings)
                && (profile.None? ==>
                      files == old(files) && outbox == old(outbox) + [Message(Usage(SaveAsUsage))])
                && (profile.Some? && !initialClientSettingsReceived ==>
                      files == old(files) && outbox == old(outbox) + [Message(ProfileNotCaptured)])
                && (profile.Some? && initialClientSettingsReceived ==>
                      var doc := SettingsDocument(false, liveClientSettings.accountSettings, liveClientSettings.userSettings);
                      var saved := SaveSettings(old(files), Some(ProfileFile(profile.value)), doc, write);
                      && files == saved.files
                      && outbox == old(outbox) +
                           [Message(if saved.ok then ProfileSaved(profile.value) else ProfileSaveFailed(profile.value))])
      // settings load <profile>: refusals change nothing; otherwise the profile becomes the document
      ensures old(Ready()) && ParseCommand(arg1, arg2).Load? ==>
                var profile := ParseCommand(arg1, arg2).profile;
                && (profile.None? ==>
                      && onDiskSettings == old(onDiskSettings) && files == old(files)
                      && outbox == old(outbox) + [Message(Usage(LoadUsage))])
                && (profile.Some? && old(onDiskSettings.lock) ==>
                      && onDiskSettings == old(onDiskSettings) && files == old(files)
                      && outbox == old(outbox) + [Message(LoadLocked)])
                && (profile.Some? && !old(onDiskSettings.lock) && ProfileFile(profile.value) !in old(files) ==>
                      && onDiskSettings == old(onDiskSettings) && files == old(files)
                      && outbox == old(outbox) + [Message(ProfileNotFound(profile.value))])
                && (profile.Some? && !old(onDiskSettings.lock) && ProfileFile(profile.value) in old(files) ==>
                      var stored := LoadSettings(old(files), Some(ProfileFile(profile.value)));
                      if stored.accountSettings.None? && stored.userSettings.None? then
                        && onDiskSettings == old(onDiskSettings) && files == old(files)
                        && outbox == old(outbox) + [Message(ProfileEmpty(profile.value))]
                      else
                        var doc := SettingsDocument(false, stored.accountSettings, stored.userSettings);
                        var saved := SaveSettings(old(files), charSettingsFilePath, doc, write);
                        && files == saved.files
                        && onDiskSettings == (if saved.ok then doc else old(onDiskSettings))
                        && outbox == old(outbox) +
                             if saved.ok then [Message(ProfileApplied(profile.value))] + ReloadOutputs(doc)
                             else [Message(ProfileApplyFailed(profile.value))])
    {
      if !Ready() {
        outbox := outbox + [Message(NotReady)];
        return;
      }
      match ParseCommand(arg1, arg2)
      case Save => SaveCommand(write);
      case Load(profile) => LoadCommand(profile, write);
      case SaveAs(profile) => SaveAsCommand(profile, write);
      case Reload => ReloadCommand();
      case Lock => LockCommand(write);
      case Status => StatusCommand();
      case ShowHelp => outbox := outbox + [Message(Usage(Help))];
    }

    /**
     * settings save: refused while the character file is locked or before the
     * initial sync; otherwise the live settings are written with the current
     * lock, and the document becomes that snapshot when the write succeeds.
     */
    method SaveCommand(write: WriteOutcome)
      requires Valid() && Ready()
      modifies this`onDiskSettings, this`files, this`outbox
      ensures Valid()
      ensures old(onDiskSettings.lock) ==>
                && onDiskSettings == old(onDiskSettings)
                && files == old(files)
                && outbox == old(outbox) + [Message(SaveLocked)]
      ensures !old(onDiskSettings.lock) && !initialClientSettingsReceived ==>
                && onDiskSettings == old(onDiskSettings)
                && files == old(files)
                && outbox == old(outbox) + [Message(NotCaptured)]
      ensures !old(onDiskSettings.lock) && initialClientSettingsReceived ==>
                var snapshot := SettingsDocument(false, liveClientSettings.accountSettings, liveClientSettings.userSettings);
                var saved := SaveSettings(old(files), charSettingsFilePath, snapshot, write);
                && files == saved.files
                && onDiskSettings == (if saved.ok then snapshot else old(onDiskSettings))
                && outbox == old(outbox) + [Message(if saved.ok then Saved else SaveFailed)]
      ensures !old(onDiskSettings.lock) && initialClientSettingsReceived && write == Written ==>
                && onDiskSettings.accountSettings.Some? && onDiskSettings.userSettings.Some?
                && LoadSettings(files, charSettingsFilePath) == onDiskSettings
    {
      if onDiskSettings.lock {
        outbox := outbox + [Message(SaveLocked)];
        return;
      }
      if !initialClientSettingsReceived {
        outbox := outbox + [Message(NotCaptured)];
        return;
      }
      var snapshot := SettingsDocument(onDiskSettings.lock, liveClientSettings.accountSettings, liveClientSettings.userSettings);
      var saved := SaveSettings(files, charSettingsFilePath, snapshot, write);
      files := saved.files;
      if saved.ok {
        onDiskSettings := snapshot;
        outbox := outbox + [Message(Saved)];
      } else {
        outbox := outbox + [Message(SaveFailed)];
      }
    }

    /**
     * settings load <profile>: refused without a name, while locked, for a
     * missing profile, and for a profile with neither kind; otherwise the
     * character file becomes the profile's settings, unlocked, and is reapplied.
     */
    method LoadCommand(profile: Option<string>, write: WriteOutcome)
      requires Valid() && Ready() && profile != Some([])
      modifies this`onDiskSettings, this`files, this`outbox
      ensures Valid()
      ensures profile.None? ==>
                && onDiskSettings == old(onDiskSettings) && files == old(files)
                && outbox == old(outbox) + [Message(Usage(LoadUsage))]
      ensures profile.Some? && old(onDiskSettings.lock) ==>
                && onDiskSettings == old(onDiskSettings) && files == old(files)
                && outbox == old(outbox) + [Message(LoadLocked)]
      ensures profile.Some? && !old(onDiskSettings.lock) && ProfileFile(profile.value) !in old(files) ==>
                && onDiskSettings == old(onDiskSettings) && files == old(files)
                && outbox == old(outbox) + [Message(ProfileNotFound(profile.value))]
      ensures profile.Some? && !old(onDiskSettings.lock) && ProfileFile(profile.value) in old(files) ==>
                var stored := LoadSettings(old(files), Some(ProfileFile(profile.value)));
                if stored.accountSettings.None? && stored.userSettings.None? then
                  && onDiskSettings == old(onDiskSettings) && files == old(files)
                  && outbox == old(outbox) + [Message(ProfileEmpty(profile.value))]
                else
                  var doc := SettingsDocument(false, stored.accountSettings, stored.userSettings);
                  var saved := SaveSettings(old(files), charSettingsFilePath, doc, write);
                  && files == saved.files
                  && onDiskSettings == (if saved.ok then doc else old(onDiskSettings))
                  && outbox == old(outbox) +
                       if saved.ok then [Message(ProfileApplied(profile.value))] + ReloadOutputs(doc)
                       else [Message(ProfileApplyFailed(profile.value))]
    {
      if profile.None? {
        outbox := outbox + [Message(Usage(LoadUsage))];
        return;
      }
      var name := profile.value;
      if onDiskSettings.lock {
        outbox := outbox + [Message(LoadLocked)];
        return;
      }
      var profilePath := ProfileFile(name);
      if profilePath !in files {
        outbox := outbox + [Message(ProfileNotFound(name))];
        return;
      }
      var stored := LoadSettings(files, Some(profilePath));
      if stored.accountSettings.None? && stored.userSettings.None? {
        outbox := outbox + [Message(ProfileEmpty(name))];
        return;
      }
      ApplyProfile(name, stored, write);
    }

    /** The second half of settings load: write the profile's settings, unlocked, and reapply them. */
    method ApplyProfile(name: string, stored: SettingsDocument, write: WriteOutcome)
      requires Valid() && Ready()
      modifies this`onDiskSettings, this`files, this`outbox
      ensures Valid()
      ensures var doc := SettingsDocument(false, stored.accountSettings, stored.userSettings);
              var saved := SaveSettings(old(files), charSettingsFilePath, doc, write);
              && files == saved.files
              && onDiskSettings == (if saved.ok then doc else old(onDiskSettings))
              && outbox == old(outbox) +
                   if saved.ok then [Message(ProfileApplied(name))] + ReloadOutputs(doc)
                   else [Message(ProfileApplyFailed(name))]
    {
      var doc := SettingsDocument(false, stored.accountSettings, stored.userSettings);
      var saved := SaveSettings(files, charSettingsFilePath, doc, write);
      files := saved.files;
      if saved.ok {
        onDiskSettings := doc;
        outbox := outbox + [Message(ProfileApplied(name))];
        ReloadAllToClient();
      } else {
        outbox := outbox + [Message(ProfileApplyFailed(name))];
      }
    }

    /**
     * settings saveas <profile>: after the initial sync, the live settings are
     * written, unlocked, to the profile's file whatever the character's lock.
     */
    method SaveAsCommand(profile: Option<string>, write: WriteOutcome)
      requires Valid() && Ready() && profile != Some([])
      modifies this`files, this`outbox
      ensures Valid()
      ensures profile.None? ==>
                files == old(files) && outbox == old(outbox) + [Message(Usage(SaveAsUsage))]
      ensures profile.Some? && !initialClientSettingsReceived ==>
                files == old(files) && outbox == old(outbox) + [Message(ProfileNotCaptured)]
      ensures profile.Some? && initialClientSettingsReceived ==>
                var doc := SettingsDocument(false, liveClientSettings.accountSettings, liveClientSettings.userSettings);
                var saved := SaveSettings(old(files), Some(ProfileFile(profile.value)), doc, write);
                && files == saved.files
                && outbox == old(outbox) +
                     [Message(if saved.ok then ProfileSaved(profile.value) else ProfileSaveFailed(profile.value))]
    {
      if profile.None? {
        outbox := outbox + [Message(Usage(SaveAsUsage))];
        return;
      }
      var name := profile.value;
      if !initialClientSettingsReceived {
        outbox := outbox + [Message(ProfileNotCaptured)];
        return;
      }
      var doc := SettingsDocument(false, liveClientSettings.accountSettings, liveClientSettings.userSettings);
      var saved := SaveSettings(files, Some(ProfileFile(name)), doc, write);
      files := saved.files;
      outbox := outbox + [Message(if saved.ok then ProfileSaved(name) else ProfileSaveFailed(name))];
    }

    /** settings reload: reapply the character document, locked or not. */
    method ReloadCommand()
      requires Valid() && Ready()
      modifies this`outbox
      ensures outbox == old(outbox) + [Message(Reloading)] + ReloadOutputs(onDiskSettings)
    {
      outbox := outbox + [Message(Reloading)];
      ReloadAllToClient();
    }

    /**
     * settings lock: the lock is flipped in memory first and then written;
     * a failed write leaves memory flipped and the file as SaveSettings
     * leaves it (unchanged, or emptied when the write failed after opening).
     */
    method LockCommand(write: WriteOutcome)
      requires Valid() && Ready()
      modifies this`onDiskSettings, this`files, this`outbox
      ensures Valid()
      ensures onDiskSettings == old(onDiskSettings).(lock := !old(onDiskSettings.lock))
      ensures var saved := SaveSettings(old(files), charSettingsFilePath, onDiskSettings, write);
              && files == saved.files
              && outbox == old(outbox) + [Message(if saved.ok then LockState(onDiskSettings.lock) else LockUpdateFailed)]
    {
      onDiskSettings := onDiskSettings.(lock := !onDiskSettings.lock);
      var saved := SaveSettings(files, charSettingsFilePath, onDiskSettings, write);
      files := saved.files;
      outbox := outbox + [Message(if saved.ok then LockState(onDiskSettings.lock) else LockUpdateFailed)];
    }

    /** settings status: a read-only report. */
    method StatusCommand()
      requires Valid() && Ready()
      modifies this`outbox
      ensures outbox == old(outbox) +
                [Message(StatusLines(StatusOf(charSettingsFilePath, onDiskSettings, liveClientSettings,
                                         initialClientSettingsReceived, isInGame)))]
    {
      outbox := outbox + [Message(StatusLines(StatusOf(charSettingsFilePath, onDiskSettings, liveClientSettings,
                                                  initialClientSettingsReceived, isInGame)))];
    }
  }
}
