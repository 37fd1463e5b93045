/**
 * Sessions driven through the engine's contracts alone: each method runs
 * the hooks and commands in the order a client would and asserts what the
 * engine must have done.
 */
module Scenarios {
  import opened Wrappers
  import opened Codec
  import opened Names
  import opened Documents
  import opened Messages
  import opened Reconcile
  import opened Engine

  /** Entering the game with no character file creates it holding the default document. */
  method FreshCharacterFile(name: Option<string>, serverId: Option<string>)
  {
    var saver := new SettingsSaver(map[]);
    saver.EnterGame(name, serverId, Written);
    var path := CharacterFile(name, serverId);
    assert saver.charSettingsFilePath == Some(path);
    assert saver.files == map[path := Serialize(DefaultDocument)];
    assert saver.onDiskSettings == DefaultDocument;
  }

  /**
   * With nothing persisted yet, the first account and user packets complete
   * the initial sync and both kinds are reported as differing.
   */
  method FirstSync(name: Option<string>, serverId: Option<string>, account: seq<byte>, user: seq<byte>)
  {
    var saver := new SettingsSaver(map[]);
    saver.EnterGame(name, serverId, Written);
    saver.TopologyLoaded();
    var pass := saver.OnServerSettings(Account, account, false);
    assert pass && !saver.initialClientSettingsReceived && saver.outbox == [];
    pass := saver.OnServerSettings(User, user, false);
    assert saver.liveClientSettings == LiveSettings(Some(ParseRawPacketData(account)), Some(ParseRawPacketData(user)));
    assert saver.initialClientSettingsReceived;
    assert saver.outbox == [Message(Differs(Account)), Message(Differs(User))];
  }

  /** From any unlocked session, locking persists the lock, and a following save changes neither the document nor the file. */
  method LockThenSave(saver: SettingsSaver)
    requires saver.Valid() && saver.Ready() && !saver.onDiskSettings.lock
    modifies saver
  {
    saver.LockCommand(Written);
    assert saver.onDiskSettings.lock;
    assert LoadSettings(saver.files, saver.charSettingsFilePath).lock;
    var lockedFiles, lockedDoc := saver.files, saver.onDiskSettings;
    saver.SaveCommand(Written);
    assert saver.files == lockedFiles && saver.onDiskSettings == lockedDoc;
  }

  /**
   * A lock whose write fails after the file was opened holds only in memory:
   * entering the game again reads the damaged file as the default, unlocked document.
   */
  method LockLostOnFailedWrite(name: Option<string>, serverId: Option<string>, partial: bool)
  {
    var saver := new SettingsSaver(map[]);
    saver.EnterGame(name, serverId, Written);
    saver.TopologyLoaded();
    saver.LockCommand(WriteFailed(partial));
    assert saver.onDiskSettings.lock;
    var path := CharacterFile(name, serverId);
    assert saver.files[path] == Leftover(partial);
    saver.EnterGame(name, serverId, Written);
    assert !saver.onDiskSettings.lock;
    // an emptied file is recreated; a cut-off one is left alone but still reads as the default
    assert !partial ==> saver.files[path] == Serialize(DefaultDocument);
    assert partial ==> saver.files[path] == Unparseable;
  }

  /** Loading a profile that does not exist changes no file and leaves the document as it was. */
  method LoadMissingProfile(name: Option<string>, serverId: Option<string>, profile: string)
    requires profile != []
  {
    var saver := new SettingsSaver(map[]);
    saver.EnterGame(name, serverId, Written);
    saver.TopologyLoaded();
    var files, doc := saver.files, saver.onDiskSettings;
    if ProfileFile(profile) !in files {
      saver.LoadCommand(Some(profile), Written);
      assert saver.files == files && saver.onDiskSettings == doc;
      assert saver.outbox[|saver.outbox| - 1] == Message(ProfileNotFound(profile));
    }
  }

  /** From any synced, unlocked session, a successful save makes status show both kinds equal. */
  method SaveThenStatus(saver: SettingsSaver)
    requires saver.Valid() && saver.Ready() && !saver.onDiskSettings.lock
    requires saver.initialClientSettingsReceived
    modifies saver
  {
    saver.SaveCommand(Written);
    assert saver.onDiskSettings.accountSettings == saver.liveClientSettings.accountSettings;
    assert saver.onDiskSettings.userSettings == saver.liveClientSettings.userSettings;
    saver.StatusCommand();
    var report := StatusOf(saver.charSettingsFilePath, saver.onDiskSettings, saver.liveClientSettings, true, true);
    assert report.comparison == Compared(true, true);
    assert saver.outbox[|saver.outbox| - 1] == Message(StatusLines(report));
  }
}
