/**
 * Pushing the character document back into the client
 * (applySettingsDataToClient, index.js:101-121; reloadAllSettingsToClient,
 * index.js:124-139).
 */
module Reapply {
  import opened Wrappers
  import opened Codec
  import opened Documents
  import opened Messages

  /** The pause before the user settings are applied (index.js:138). */
  const ReapplyDelayMs: nat := 150

  /**
   * Applying one kind: nothing to inject when the document has no record,
   * a "corrupt" notice when a field is empty, otherwise the rebuilt buffer
   * followed by a confirmation.
   */
  function ApplyOutputs(doc: SettingsDocument, kind: Kind): (r: seq<Output>)
    ensures doc.Get(kind).None? ==> r == [Message(NoData(kind))]
    ensures doc.Get(kind).Some? && Reconstruct(doc.Get(kind).value).None? ==> r == [Message(Corrupt(kind))]
    ensures doc.Get(kind).Some? && Reconstruct(doc.Get(kind).value).Some? ==>
              r == [ToClient(Reconstruct(doc.Get(kind).value).value), Message(Applied(kind))]
    ensures 1 <= |r| <= 2
  {
    match doc.Get(kind)
    case None => [Message(NoData(kind))]
    case Some(record) =>
      match Reconstruct(record)
      case None => [Message(Corrupt(kind))]
      case Some(buffer) => [ToClient(buffer), Message(Applied(kind))]
  }

  /** A buffer is injected exactly when the record is present and rebuilds, and it is the rebuilt buffer. */
  lemma ApplyInjects(doc: SettingsDocument, kind: Kind)
    ensures Injections(ApplyOutputs(doc, kind)) ==
            if doc.Get(kind).Some? && Reconstruct(doc.Get(kind).value).Some?
            then [Reconstruct(doc.Get(kind).value).value] else []
  {
    var r := ApplyOutputs(doc, kind);
    assert Injections(r[1..]) == [] by {
      if |r| == 2 { assert Injections(r[1..][1..]) == []; }
    }
  }

  /** A document whose record was captured from a packet of five or more bytes reinjects that very packet. */
  lemma ApplyCapturedPacket(doc: SettingsDocument, kind: Kind, buffer: seq<byte>)
    requires doc.Get(kind) == Some(ParseRawPacketData(buffer))
    ensures ApplyOutputs(doc, kind) ==
            if |buffer| >= 5 then [ToClient(buffer), Message(Applied(kind))] else [Message(Corrupt(kind))]
  {
    ReconstructParsed(buffer);
  }

  /** Account first, a non-zero pause, then User (the deferred step). */
  function ReloadOutputs(doc: SettingsDocument): (r: seq<Output>)
  {
    ApplyOutputs(doc, Account) + [Delay(ReapplyDelayMs)] + ApplyOutputs(doc, User)
  }

  /**
   * Reloading injects what applying Account injects, then what applying User
   * injects, and the non-zero pause stands after every Account output and
   * before every User output.
   */
  lemma ReloadOrder(doc: SettingsDocument)
    ensures Injections(ReloadOutputs(doc)) ==
            Injections(ApplyOutputs(doc, Account)) + Injections(ApplyOutputs(doc, User))
    ensures var r := ReloadOutputs(doc);
            var d := |ApplyOutputs(doc, Account)|;
            && d < |r| && r[d] == Delay(ReapplyDelayMs) && ReapplyDelayMs > 0
            && r[..d] == ApplyOutputs(doc, Account) && r[d + 1..] == ApplyOutputs(doc, User)
  {
    var a, u := ApplyOutputs(doc, Account), ApplyOutputs(doc, User);
    InjectionsAppend(a, [Delay(ReapplyDelayMs)]);
    InjectionsAppend(a + [Delay(ReapplyDelayMs)], u);
    assert Injections([Delay(ReapplyDelayMs)]) == [];
  }

  /** Reloading a document captured from two packets reinjects the account packet, pauses, then the user packet. */
  lemma ReloadCapturedPackets(doc: SettingsDocument, account: seq<byte>, user: seq<byte>)
    requires doc.accountSettings == Some(ParseRawPacketData(account)) && |account| >= 5
    requires doc.userSettings == Some(ParseRawPacketData(user)) && |user| >= 5
    ensures ReloadOutputs(doc) ==
            [ToClient(account), Message(Applied(Account)), Delay(ReapplyDelayMs),
             ToClient(user), Message(Applied(User))]
    ensures Injections(ReloadOutputs(doc)) == [account, user]
  {
    ApplyCapturedPacket(doc, Account, account);
    ApplyCapturedPacket(doc, User, user);
    ReloadOrder(doc);
    ApplyInjects(doc, Account);
    ApplyInjects(doc, User);
    ReconstructParsed(account);
    ReconstructParsed(user);
  }

  /** A profile holding only account settings: the account packet is applied and the user part reports no data. */
  lemma ReloadAccountOnly(doc: SettingsDocument, account: seq<byte>)
    requires doc.accountSettings == Some(ParseRawPacketData(account)) && |account| >= 5
    requires doc.userSettings == None
    ensures ReloadOutputs(doc) ==
            [ToClient(account), Message(Applied(Account)), Delay(ReapplyDelayMs), Message(NoData(User))]
  {
    ApplyCapturedPacket(doc, Account, account);
  }
}
