/**
 * Report-mode reconciliation: the notices the packet handlers emit when the
 * live settings are compared with the character document (index.js:191-206,
 * index.js:222-224), and the `settings status` report (index.js:335-351).
 */
module Reconcile {
  import opened Wrappers
  import opened Documents
  import opened Messages

  /**
   * The report made once both kinds have first been observed: one "differ"
   * notice per kind that differs from the document, or a single "match".
   */
  function InitialSyncNotices(live: LiveSettings, doc: SettingsDocument): (r: seq<Output>)
    ensures |r| == if live.accountSettings != doc.accountSettings && live.userSettings != doc.userSettings then 2 else 1
    ensures Message(Differs(Account)) in r <==> live.accountSettings != doc.accountSettings
    ensures Message(Differs(User)) in r <==> live.userSettings != doc.userSettings
    ensures Message(SettingsMatch) in r <==>
              live.accountSettings == doc.accountSettings && live.userSettings == doc.userSettings
    ensures live.accountSettings != doc.accountSettings && live.userSettings != doc.userSettings ==>
              r == [Message(Differs(Account)), Message(Differs(User))]
  {
    var accountEqual := SettingsEqual(live.accountSettings, doc.accountSettings);
    var userEqual := SettingsEqual(live.userSettings, doc.userSettings);
    (if !accountEqual then [Message(Differs(Account))] else [])
    + (if !userEqual then [Message(Differs(User))] else [])
    + (if accountEqual && userEqual then [Message(SettingsMatch)] else [])
  }

  /** After the initial sync, a server update reports drift of the changed kind only. */
  function DriftNotices(kind: Kind, live: LiveSettings, doc: SettingsDocument): (r: seq<Output>)
    ensures r == [] <==> live.Get(kind) == doc.Get(kind)
    ensures r != [] ==> r == [Message(Drift(kind))]
  {
    if !SettingsEqual(live.Get(kind), doc.Get(kind)) then [Message(Drift(kind))] else []
  }

  /** A client save attempt is reported, after the initial sync, when it departs from the document. */
  function ClientChangeNotices(kind: Kind, live: LiveSettings, doc: SettingsDocument, initialReceived: bool): (r: seq<Output>)
    ensures r == [] <==> !initialReceived || live.Get(kind) == doc.Get(kind)
    ensures r != [] ==> r == [Message(ChangedByGame(kind))]
  {
    if initialReceived && !SettingsEqual(live.Get(kind), doc.Get(kind)) then [Message(ChangedByGame(kind))] else []
  }

  /** `settings status` */
  function StatusOf(path: Option<string>, doc: SettingsDocument, live: LiveSettings,
                    initialReceived: bool, inGame: bool): (r: StatusReport)
    ensures r.charFile == path
    ensures r.charfile.Some? <==> IsPresent(path)
    ensures r.charfile.Some? ==>
              r.charfile.value.lock == doc.lock &&
              (r.charfile.value.accountPopulated <==> doc.accountSettings.Some?) &&
              (r.charfile.value.userPopulated <==> doc.userSettings.Some?)
    ensures r.liveAccountPopulated <==> live.accountSettings.Some?
    ensures r.liveUserPopulated <==> live.userSettings.Some?
    ensures r.comparison.Compared? <==> initialReceived && inGame
    ensures r.comparison.Compared? ==>
              (r.comparison.accountEqual <==> live.accountSettings == doc.accountSettings) &&
              (r.comparison.userEqual <==> live.userSettings == doc.userSettings)
    ensures r.comparison == Pending <==> inGame && !initialReceived
  {
    StatusReport(
      path,
      if IsPresent(path) then
        Some(CharfileStatus(doc.lock, doc.accountSettings != None, doc.userSettings != None))
      else None,
      live.accountSettings != None,
      live.userSettings != None,
      if initialReceived && inGame then
        Compared(SettingsEqual(live.accountSettings, doc.accountSettings),
                 SettingsEqual(live.userSettings, doc.userSettings))
      else if inGame then Pending
      else NotShown)
  }

  /**
   * Drift visibility: once in sync, status reports drift of exactly the kinds
   * that differ, and a document built from the live settings (what a
   * successful `settings save` leaves) compares equal on both.
   */
  lemma StatusShowsDrift(path: Option<string>, lock: bool, doc: SettingsDocument, live: LiveSettings)
    ensures StatusOf(path, doc, live, true, true).comparison ==
            Compared(live.accountSettings == doc.accountSettings, live.userSettings == doc.userSettings)
    ensures StatusOf(path, SettingsDocument(lock, live.accountSettings, live.userSettings), live, true, true).comparison ==
            Compared(true, true)
  {
  }
}
