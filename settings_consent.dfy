/**
 * The settings page's consent switch: whether chat records may be used as training data.
 * Consent is on unless storage holds exactly `"false"`; toggling flips it and writes the new
 * value, and a failing write is ignored.
 */
module SettingsConsent {
  import opened Wrappers
  import opened BrowserStorage

  const ConsentKey: string := "settings-chat-records-consent"

  /** The text `saveConsent` stores for a value. */
  function ConsentText(value: bool): string {
    if value then "true" else "false"
  }

  /** What `loadConsent` makes of the stored text: only `"false"` withholds consent. */
  function ConsentOf(stored: Option<string>): bool {
    stored != Some("false")
  }

  /** What `saveConsent` writes, `loadConsent` reads back. */
  lemma {:induction false} ConsentRoundTrip(value: bool)
    ensures ConsentOf(Some(ConsentText(value))) == value
  {
    if !value {
      assert ConsentText(value) == "false";
    } else {
      assert ConsentText(value) != "false" by {
        assert ConsentText(value)[0] == 't';
      }
    }
  }

  /** The consent the page would load from this storage. */
  function LoadedConsent(storage: Storage): bool
    reads storage
  {
    ConsentOf(storage.Lookup(ConsentKey))
  }

  /** `loadConsent`: false exactly when storage works and holds `"false"`; unset, other text or an error mean consent. */
  method LoadConsent(storage: Storage) returns (r: bool)
    ensures !r <==> storage.available && ConsentKey in storage.items && storage.items[ConsentKey] == "false"
    ensures r == LoadedConsent(storage)
  {
    var stored, threw := storage.GetItem(ConsentKey);
    if threw {
      return true;
    }
    if stored == Some("false") {
      return false;
    }
    return true;
  }

  /** `saveConsent`: writes `"true"` or `"false"`; a failing write changes nothing and is ignored. */
  method SaveConsent(storage: Storage, value: bool)
    modifies storage
    ensures storage.available == old(storage.available)
    ensures storage.items == if storage.available then old(storage.items)[ConsentKey := ConsentText(value)] else old(storage.items)
    ensures storage.available ==> LoadedConsent(storage) == value
  {
    var _ := storage.SetItem(ConsentKey, ConsentText(value));
    ConsentRoundTrip(value);
  }

  /** The page: the switch's state, whether it has loaded, and the storage it persists to. */
  class SettingsPage {
    var consent: bool
    var mounted: bool
    const storage: Storage

    /** Before mounting the switch shows consent. */
    constructor(storage: Storage)
      ensures consent && !mounted && this.storage == storage
    {
      consent := true;
      mounted := false;
      this.storage := storage;
    }

    /** The mount effect: load the stored consent. */
    method Mount()
      modifies this
      ensures consent == LoadedConsent(storage) && mounted
    {
      consent := LoadConsent(storage);
      mounted := true;
    }

    /** `handleToggle`: flip the switch and persist it; the flip happens even if the write fails. */
    method Toggle()
      modifies this, storage
      ensures consent == !old(consent) && mounted == old(mounted)
      ensures storage.available == old(storage.available)
      ensures storage.items == if storage.available then old(storage.items)[ConsentKey := ConsentText(consent)] else old(storage.items)
      ensures storage.available ==> LoadedConsent(storage) == consent
    {
      var next := !consent;
      consent := next;
      SaveConsent(storage, next);
    }
  }
}
