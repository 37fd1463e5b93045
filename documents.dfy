/**
 * Settings documents and their persistence (index.js:22-72). The data
 * directory is a map from file path to what the file holds; reading and
 * writing it is the only file-system access the engine makes.
 */
module Documents {
  import opened Wrappers
  import opened Codec

  /** The two independent settings channels. */
  datatype Kind = Account | User

  /** A captured record, or None for the source's null. */
  type Setting = Option<PacketRecord>

  /** {lock, accountSettings, userSettings} as the engine holds it after coercion. */
  datatype SettingsDocument = SettingsDocument(lock: bool, accountSettings: Setting, userSettings: Setting) {
    function Get(kind: Kind): Setting {
      match kind
      case Account => accountSettings
      case User => userSettings
    }
  }

  /** Returned for a missing path, a missing, empty or unreadable file, and bad JSON (index.js:23). */
  const DefaultDocument := SettingsDocument(false, None, None)

  /** The document installed when entering the game fails (index.js:163). */
  const LockedDocument := SettingsDocument(true, None, None)

  /** liveClientSettings: the latest record seen for each kind. */
  datatype LiveSettings = LiveSettings(accountSettings: Setting, userSettings: Setting) {
    function Get(kind: Kind): Setting {
      match kind
      case Account => accountSettings
      case User => userSettings
    }

    /** Recording the latest value of one kind in the live cache (index.js:188). */
    function Set(kind: Kind, value: Setting): (r: LiveSettings)
      ensures r.Get(kind) == value
      ensures forall k :: k != kind ==> r.Get(k) == Get(k)
    {
      match kind
      case Account => this.(accountSettings := value)
      case User => this.(userSettings := value)
    }

    /** Both kinds have been observed. */
    predicate IsComplete() {
      accountSettings.Some? && userSettings.Some?
    }
  }

  const NoLiveSettings := LiveSettings(None, None)

  /**
   * areSettingsDataEqual: two nulls are equal, a null and a record are not,
   * and two records are compared through their JSON text, which for three
   * string fields in the same order is field-by-field equality.
   */
  function SettingsEqual(a: Setting, b: Setting): (r: bool)
    ensures r <==> a == b
  {
    if a.None? && b.None? then true
    else if a.None? || b.None? then false
    else a.value.length == b.value.length && a.value.opcode == b.value.opcode && a.value.payload == b.value.payload
  }

  /** The comparison is an equivalence relation. */
  lemma SettingsEqualIsEquivalence()
    ensures forall a :: SettingsEqual(a, a)
    ensures forall a, b :: SettingsEqual(a, b) == SettingsEqual(b, a)
    ensures forall a, b, c :: SettingsEqual(a, b) && SettingsEqual(b, c) ==> SettingsEqual(a, c)
  {
  }

  /** The `lock` member of a parsed file: a JSON boolean, or anything else (absent included). */
  datatype RawLock = LockBool(value: bool) | LockNotBool

  /** A parsed JSON object; a settings member that is absent or falsy reads as None. */
  datatype RawDocument = RawDocument(lock: RawLock, accountSettings: Setting, userSettings: Setting)

  /** What a file in the data directory holds. */
  datatype FileContent =
    | Blank                    // only white space
    | Unreadable               // exists, but reading it throws
    | Unparseable              // not JSON, or JSON that is not an object
    | Parsed(doc: RawDocument)

  type Files = map<string, FileContent>

  /** A path the source treats as truthy. */
  predicate IsPresent(path: Option<string>) {
    path.Some? && path.value != []
  }

  /**
   * The coercion of index.js:39-43: the lock is the stored value only when it
   * is a boolean, and false otherwise; absent settings read as null.
   */
  function Coerce(raw: RawDocument): (d: SettingsDocument)
    ensures d.lock <==> raw.lock == LockBool(true)
    ensures d.accountSettings == raw.accountSettings && d.userSettings == raw.userSettings
  {
    SettingsDocument(if raw.lock.LockBool? then raw.lock.value else false, raw.accountSettings, raw.userSettings)
  }

  /** loadSettingsFromFile */
  function LoadSettings(files: Files, path: Option<string>): (d: SettingsDocument)
    ensures (!IsPresent(path) || path.value !in files) ==> d == DefaultDocument
    ensures IsPresent(path) && path.value in files && !files[path.value].Parsed? ==> d == DefaultDocument
    ensures IsPresent(path) && path.value in files && files[path.value].Parsed? ==>
              d == Coerce(files[path.value].doc)
  {
    if !IsPresent(path) || path.value !in files then DefaultDocument
    else
      match files[path.value]
      case Parsed(raw) => Coerce(raw)
      case _ => DefaultDocument
  }

  /**
   * The object saveSettingsToFile writes. Its own coercion is the identity on
   * documents the engine builds: their lock is a boolean and a record is truthy.
   */
  function Serialize(d: SettingsDocument): FileContent {
    Parsed(RawDocument(LockBool(d.lock), d.accountSettings, d.userSettings))
  }

  datatype SaveResult = SaveResult(ok: bool, files: Files)

  /**
   * How the host's synchronous file write ends. Opening the file for writing
   * either fails, leaving it as it was, or empties (or creates) it; a write
   * that then fails leaves the file empty or holding a cut-off JSON text.
   */
  datatype WriteOutcome =
    | Written
    | OpenFailed
    | WriteFailed(partial: bool)   // partial: some of the text reached the file

  /** What the file holds after a write that failed once the file was opened. */
  function Leftover(partial: bool): FileContent {
    if partial then Unparseable else Blank
  }

  /**
   * saveSettingsToFile (index.js:50-72): false for a missing path or a failed
   * write (never an exception); on success the file holds the document. A
   * write that fails after opening leaves the file empty or partial. No other
   * file changes.
   */
  function SaveSettings(files: Files, path: Option<string>, d: SettingsDocument, write: WriteOutcome): (r: SaveResult)
    ensures r.ok <==> IsPresent(path) && write == Written
    ensures r.ok ==> r.files == files[path.value := Serialize(d)]
    ensures !IsPresent(path) || write == OpenFailed ==> r.files == files
    ensures IsPresent(path) && write.WriteFailed? ==> r.files == files[path.value := Leftover(write.partial)]
  {
    if !IsPresent(path) then SaveResult(false, files)
    else
      match write
      case Written => SaveResult(true, files[path.value := Serialize(d)])
      case OpenFailed => SaveResult(false, files)
      case WriteFailed(partial) => SaveResult(false, files[path.value := Leftover(partial)])
  }

  /**
   * A write that fails after the file was opened loses what the file held:
   * it then loads as the default document, unlocked and empty.
   */
  lemma FailedWriteLosesDocument(files: Files, path: Option<string>, d: SettingsDocument, partial: bool)
    requires IsPresent(path)
    ensures var r := SaveSettings(files, path, d, WriteFailed(partial));
            !r.ok && LoadSettings(r.files, path) == DefaultDocument && !LoadSettings(r.files, path).lock
  {
  }

  /** A write that fails to open the file changes no file. */
  lemma OpenFailureKeepsFiles(files: Files, path: Option<string>, d: SettingsDocument)
    ensures SaveSettings(files, path, d, OpenFailed) == SaveResult(false, files)
  {
  }

  /** What is saved is loaded back unchanged. */
  lemma LoadAfterSave(files: Files, path: Option<string>, d: SettingsDocument, write: WriteOutcome)
    requires SaveSettings(files, path, d, write).ok
    ensures LoadSettings(SaveSettings(files, path, d, write).files, path) == d
  {
  }

  /** Saving a loaded document and loading it again gives the same document. */
  lemma SaveLoadedIsIdempotent(files: Files, path: Option<string>)
    requires IsPresent(path)
    ensures LoadSettings(SaveSettings(files, path, LoadSettings(files, path), Written).files, path)
            == LoadSettings(files, path)
  {
    LoadAfterSave(files, path, LoadSettings(files, path), Written);
  }

  /** A save to one path does not change what another path loads. */
  lemma SaveKeepsOtherLoads(files: Files, path: Option<string>, other: Option<string>, d: SettingsDocument, write: WriteOutcome)
    requires IsPresent(other) && other != path
    ensures LoadSettings(SaveSettings(files, path, d, write).files, other) == LoadSettings(files, other)
  {
  }
}
