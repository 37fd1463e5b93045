/**
 * What the engine sends out: user messages (identified by their meaning, not
 * their wording), buffers injected into the client, and the pause before a
 * deferred step.
 */
module Messages {
  import opened Wrappers
  import opened Codec
  import opened Documents

  datatype UsageHint = LoadUsage | SaveAsUsage | Help

  /** The line-by-line equality part of `settings status`. */
  datatype Comparison =
    | Compared(accountEqual: bool, userEqual: bool)
    | Pending     // in game, initial sync not complete
    | NotShown    // not in game

  /** The character-file part of `settings status`. */
  datatype CharfileStatus = CharfileStatus(lock: bool, accountPopulated: bool, userPopulated: bool)

  datatype StatusReport = StatusReport(
    charFile: Option<string>,
    charfile: Option<CharfileStatus>,
    liveAccountPopulated: bool,
    liveUserPopulated: bool,
    comparison: Comparison)

  datatype Notice =
    // gating and usage
    | NotReady
    | Usage(hint: UsageHint)
    // report-mode reconciliation
    | Differs(kind: Kind)
    | SettingsMatch
    | Drift(kind: Kind)
    | ChangedByGame(kind: Kind)
    // settings save
    | SaveLocked
    | NotCaptured
    | Saved
    | SaveFailed
    // settings load
    | LoadLocked
    | ProfileNotFound(profile: string)
    | ProfileEmpty(profile: string)
    | ProfileApplied(profile: string)
    | ProfileApplyFailed(profile: string)
    // settings saveas
    | ProfileNotCaptured
    | ProfileSaved(profile: string)
    | ProfileSaveFailed(profile: string)
    // settings reload and reapplication
    | Reloading
    | NoData(kind: Kind)
    | Corrupt(kind: Kind)
    | Applied(kind: Kind)
    // settings lock and status
    | LockState(on: bool)
    | LockUpdateFailed
    | StatusLines(report: StatusReport)

  datatype Output =
    | Message(notice: Notice)
    | ToClient(buffer: seq<byte>)
    | Delay(ms: nat)

  /** The buffers among some outputs, in order. */
  function Injections(outs: seq<Output>): (r: seq<seq<byte>>)
    ensures |r| <= |outs|
  {
    if outs == [] then []
    else (if outs[0].ToClient? then [outs[0].buffer] else []) + Injections(outs[1..])
  }

  lemma {:induction false} InjectionsAppend(a: seq<Output>, b: seq<Output>)
    ensures Injections(a + b) == Injections(a) + Injections(b)
  {
    if a == [] {
      assert a + b == b;
    } else {
      var ab := a + b;
      assert ab[0] == a[0] && ab[1..] == a[1..] + b;
      InjectionsAppend(a[1..], b);
    }
  }
}
