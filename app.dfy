/**
 * The application shell: the document state, its initialization from the
 * browser's local storage, and the effect that saves the company profile
 * whenever the company object is replaced. Storage is a map from key to text;
 * whether a write succeeds (it can fail, e.g. when the quota is exceeded) is a
 * parameter of each write.
 */
module App {
  import opened Wrappers
  import opened Types
  import Constants
  import InvoiceForm
  import Json
  import SignatureCapture

  /** The one key under which the company profile is cached. */
  const StorageKey: string := "tradequest_company_data"

  /**
   * The state initializer: a non-empty cached value that parses replaces the
   * default company; a missing value, an empty one or one that fails to parse
   * gives the default document, and no error escapes.
   */
  function InitialDocument(entries: map<string, string>, clock: Constants.Clock): (r: InvoiceData)
    ensures r.(company := Constants.InitialData(clock).company) == Constants.InitialData(clock)
    ensures StorageKey in entries && entries[StorageKey] != "" && Json.Decode(entries[StorageKey]).Some?
      ==> r.company == Json.Decode(entries[StorageKey]).value
    ensures StorageKey !in entries || entries[StorageKey] == "" || Json.Decode(entries[StorageKey]).None?
      ==> r == Constants.InitialData(clock)
  {
    var defaults := Constants.InitialData(clock);
    if StorageKey in entries && entries[StorageKey] != "" then
      match Json.Decode(entries[StorageKey])
      case Some(saved) => defaults.(company := saved)
      case None => defaults
    else defaults
  }

  /**
   * The save effect's write: the encoded profile under the key, no other key
   * touched; a failed write is swallowed and leaves the storage as it was.
   */
  function StoreCompany(entries: map<string, string>, c: CompanyDetails, writeOk: bool): (r: map<string, string>)
    ensures writeOk ==> StorageKey in r && r[StorageKey] == Json.Encode(c)
    ensures writeOk ==> r.Keys == entries.Keys + {StorageKey}
    ensures forall k :: k in entries && k != StorageKey ==> k in r && r[k] == entries[k]
    ensures !writeOk ==> r == entries
  {
    if writeOk then entries[StorageKey := Json.Encode(c)] else entries
  }

  /** After a successful save of `c`, a new session starts from the defaults with company `c`. */
  lemma ReloadAfterSave(entries: map<string, string>, c: CompanyDetails, clock: Constants.Clock)
    ensures InitialDocument(StoreCompany(entries, c, true), clock) == Constants.InitialData(clock).(company := c)
  {
    Json.DecodeEncode(c);
  }

  /** The document and the storage, as one value. */
  datatype AppState = AppState(data: InvoiceData, entries: map<string, string>)

  /**
   * Mounting: initialize, then the effect runs once and saves the company.
   * Only the profile's key can change, and a failed save leaves storage as it was.
   */
  function AfterBoot(entries: map<string, string>, clock: Constants.Clock, writeOk: bool): (r: AppState)
    ensures r.data == InitialDocument(entries, clock)
    ensures r.entries.Keys <= entries.Keys + {StorageKey}
    ensures forall k :: k in entries && k != StorageKey ==> k in r.entries && r.entries[k] == entries[k]
    ensures !writeOk ==> r.entries == entries
  {
    var d := InitialDocument(entries, clock);
    AppState(d, StoreCompany(entries, d.company, writeOk))
  }

  /**
   * One edit from the form: the document is replaced; the effect runs (and
   * writes) only when the edit built a new company object.
   */
  function AfterEdit(s: AppState, e: InvoiceForm.FormEdit, writeOk: bool): (r: AppState)
    requires InvoiceForm.ValidEdit(e)
    ensures r.data == InvoiceForm.ApplyEdit(s.data, e)
    ensures !InvoiceForm.RebuildsCompany(e) || !writeOk ==> r.entries == s.entries
    ensures InvoiceForm.RebuildsCompany(e) && writeOk ==> Synced(r)
  {
    var d := InvoiceForm.ApplyEdit(s.data, e);
    AppState(d, if InvoiceForm.RebuildsCompany(e) then StoreCompany(s.entries, d.company, writeOk) else s.entries)
  }

  /** The cache holds exactly the encoding of the current company. */
  predicate Synced(s: AppState) {
    StorageKey in s.entries && s.entries[StorageKey] == Json.Encode(s.data.company)
  }

  /** A successful first save puts storage in step with the document. */
  lemma BootSynced(entries: map<string, string>, clock: Constants.Clock)
    ensures Synced(AfterBoot(entries, clock, true))
  {
  }

  /**
   * With successful writes, every edit keeps storage in step: edits that
   * rebuild the company write it, and the others keep the very same company.
   */
  lemma EditKeepsSynced(s: AppState, e: InvoiceForm.FormEdit)
    requires InvoiceForm.ValidEdit(e) && Synced(s)
    ensures Synced(AfterEdit(s, e, true))
  {
    if !InvoiceForm.RebuildsCompany(e) {
      InvoiceForm.OtherEditsKeepCompany(s.data, e);
    }
  }

  /** An edit that does not rebuild the company leaves the storage untouched. */
  lemma OtherEditsDoNotSave(s: AppState, e: InvoiceForm.FormEdit, writeOk: bool)
    requires InvoiceForm.ValidEdit(e) && !InvoiceForm.RebuildsCompany(e)
    ensures AfterEdit(s, e, writeOk).entries == s.entries
    ensures AfterEdit(s, e, writeOk).data.company == s.data.company
  {
    InvoiceForm.OtherEditsKeepCompany(s.data, e);
  }

  predicate AllValid(edits: seq<InvoiceForm.FormEdit>) {
    forall i :: 0 <= i < |edits| ==> InvoiceForm.ValidEdit(edits[i])
  }

  /** A session of edits, every write succeeding. */
  function Replay(s: AppState, edits: seq<InvoiceForm.FormEdit>): AppState
    requires AllValid(edits)
    decreases |edits|
  {
    if edits == [] then s else Replay(AfterEdit(s, edits[0], true), edits[1..])
  }

  lemma {:induction false} ReplayKeepsSynced(s: AppState, edits: seq<InvoiceForm.FormEdit>)
    requires Synced(s) && AllValid(edits)
    ensures Synced(Replay(s, edits))
    decreases |edits|
  {
    if edits != [] {
      EditKeepsSynced(s, edits[0]);
      ReplayKeepsSynced(AfterEdit(s, edits[0], true), edits[1..]);
    }
  }

  /**
   * Whatever the cache held at start and whatever the edits, when every write
   * succeeds the next session starts with the company the last one ended with.
   */
  lemma SessionRoundTrip(entries: map<string, string>, clock: Constants.Clock,
                         edits: seq<InvoiceForm.FormEdit>, nextClock: Constants.Clock)
    requires AllValid(edits)
    ensures var s := Replay(AfterBoot(entries, clock, true), edits);
      InitialDocument(s.entries, nextClock) == Constants.InitialData(nextClock).(company := s.data.company)
  {
    var s := Replay(AfterBoot(entries, clock, true), edits);
    BootSynced(entries, clock);
    ReplayKeepsSynced(AfterBoot(entries, clock, true), edits);
    assert s.entries == StoreCompany(s.entries, s.data.company, true);
    ReloadAfterSave(s.entries, s.data.company, nextClock);
  }

  /** A failed write changes nothing but the storage's chance to catch up: the document is the same. */
  lemma FailedWriteSwallowed(s: AppState, e: InvoiceForm.FormEdit)
    requires InvoiceForm.ValidEdit(e)
    ensures AfterEdit(s, e, false) == AppState(AfterEdit(s, e, true).data, s.entries)
  {
  }

  /** A fresh browser: the session starts from exactly the default document. */
  lemma FreshSession(clock: Constants.Clock)
    ensures AfterBoot(map[], clock, true).data == Constants.InitialData(clock)
  {
  }

  /**
   * Text under the key that is not an object literal (blank, or starting with
   * anything but a brace after white space): the session starts from exactly
   * the default document.
   */
  lemma MalformedCache(t: string, clock: Constants.Clock)
    requires Json.SkipWs(t) == [] || Json.SkipWs(t)[0] != '{'
    ensures InitialDocument(map[StorageKey := t], clock) == Constants.InitialData(clock)
  {
  }

  /**
   * A finished stroke is auto-saved: when a release that ends a stroke is
   * handed to the session as the form's edit and the write succeeds, the
   * storage holds the profile with the new signature, and it reads back.
   */
  lemma StrokeIsSaved(s: AppState, pad: SignatureCapture.PadState, snap: string)
    requires pad.isDrawing && pad.doc == s.data
    ensures var e := InvoiceForm.InputChangeEdit(InvoiceForm.Company(InvoiceForm.SignatureUrl), snap);
      var after := AfterEdit(s, e, true);
      after.data == SignatureCapture.Step(pad, SignatureCapture.Release(snap)).doc
      && StorageKey in after.entries
      && Json.Decode(after.entries[StorageKey]) == Some(s.data.company.(signatureUrl := Some(snap)))
  {
    var e := InvoiceForm.InputChangeEdit(InvoiceForm.Company(InvoiceForm.SignatureUrl), snap);
    SignatureCapture.ReleaseIsSavedEdit(pad, snap);
    Json.DecodeEncode(AfterEdit(s, e, true).data.company);
  }

  /** The browser's local storage. */
  class LocalStorage {
    var entries: map<string, string>

    constructor (initial: map<string, string>)
      ensures entries == initial
    {
      entries := initial;
    }

    /** `localStorage.setItem`: `thrown` when the write fails, the store then unchanged. */
    method SetItem(key: string, value: string, writeOk: bool) returns (thrown: bool)
      modifies this
      ensures thrown == !writeOk
      ensures entries == if writeOk then old(entries)[key := value] else old(entries)
    {
      thrown := !writeOk;
      if writeOk {
        entries := entries[key := value];
      }
    }
  }

  /** The mounted application: its document state and the storage it saves to. */
  class Session {
    var data: InvoiceData
    const storage: LocalStorage

    function State(): AppState
      reads this, storage
    {
      AppState(data, storage.entries)
    }

    /** Mount: the state initializer, then the save effect's first run. */
    constructor (storage: LocalStorage, clock: Constants.Clock, writeOk: bool)
      modifies storage
      ensures this.storage == storage
      ensures State() == AfterBoot(old(storage.entries), clock, writeOk)
    {
      data := InitialDocument(storage.entries, clock);
      this.storage := storage;
      new;
      SaveCompany(writeOk);
    }

    /** The save effect: write the encoded company under the key, swallowing a failure. */
    method SaveCompany(writeOk: bool)
      modifies storage
      ensures storage.entries == StoreCompany(old(storage.entries), data.company, writeOk)
    {
      // A thrown write error is logged and dropped; the document state is not touched.
      var _ := storage.SetItem(StorageKey, Json.Encode(data.company), writeOk);
    }

    /** The form's `onChange` with the edited document, then the effect if the company object is new. */
    method Edit(e: InvoiceForm.FormEdit, writeOk: bool)
      requires InvoiceForm.ValidEdit(e)
      modifies this, storage
      ensures State() == AfterEdit(old(State()), e, writeOk)
      ensures writeOk && old(Synced(State())) ==> Synced(State())
      ensures !InvoiceForm.RebuildsCompany(e) ==> storage.entries == old(storage.entries)
    {
      data := InvoiceForm.ApplyEdit(data, e);
      if InvoiceForm.RebuildsCompany(e) {
        SaveCompany(writeOk);
      }
      if writeOk && old(Synced(State())) {
        EditKeepsSynced(old(State()), e);
      }
    }
  }
}
