/** Cookie consent (lib/consent.ts): the visitor's choice and the time it was made, stored in
    `localStorage` under two keys and valid for 365 days. The clock (`Date.now()`) and the
    presence of a browser window are parameters. */
module Consent {
  import opened Wrappers
  import opened Strings
  import opened BrowserStorage

  const ConsentKey: string := "cookie-consent"
  const ConsentTimestampKey: string := "cookie-consent-timestamp"
  const ConsentExpiryDays: int := 365

  /** `CONSENT_EXPIRY_DAYS * 24 * 60 * 60 * 1000`, in milliseconds. */
  const ConsentExpiryMs: int := ConsentExpiryDays * 24 * 60 * 60 * 1000

  datatype ConsentStatus = Accepted | Declined | Pending

  function StatusText(s: ConsentStatus): (r: string)
    ensures r != ""
  {
    match s
    case Accepted => "accepted"
    case Declined => "declined"
    case Pending => "pending"
  }

  /** `ConsentData`. The status is the stored string: reading does not check it against the three
      statuses. */
  datatype ConsentData = ConsentData(status: string, timestamp: int, analyticsEnabled: bool)

  /** `isConsentValid`: the consent was given less than a year before `now`. A timestamp that
      `parseInt` could not read (`NaN`) is never valid. */
  predicate IsConsentValid(timestamp: Option<int>, now: int) {
    timestamp.Some? && now < timestamp.value + ConsentExpiryMs
  }

  /** The stored pair, when both values are present and non-empty. */
  predicate HasStoredPair(items: map<string, string>) {
    ConsentKey in items && items[ConsentKey] != "" && ConsentTimestampKey in items && items[ConsentTimestampKey] != ""
  }

  /** The stored consent is present but no longer valid, so reading it clears it. */
  predicate Expired(items: map<string, string>, now: int) {
    HasStoredPair(items) && !IsConsentValid(ParseInt(items[ConsentTimestampKey]), now)
  }

  /** What `getConsent` returns for the given storage contents. */
  function ReadConsent(items: map<string, string>, hasWindow: bool, now: int): (r: Option<ConsentData>)
    ensures r.Some? <==> hasWindow && HasStoredPair(items) && !Expired(items, now)
    ensures r.Some? ==>
      && r.value.status == items[ConsentKey]
      && Some(r.value.timestamp) == ParseInt(items[ConsentTimestampKey])
      && now < r.value.timestamp + ConsentExpiryMs
      && (r.value.analyticsEnabled <==> r.value.status == "accepted")
  {
    if !hasWindow || !HasStoredPair(items) then None
    else
      var timestamp := ParseInt(items[ConsentTimestampKey]);
      if !IsConsentValid(timestamp, now) then None
      else
        var status := items[ConsentKey];
        Some(ConsentData(status, timestamp.value, status == "accepted"))
  }

  /** `getConsent`: reads both keys; an expired consent is cleared and reads as `null`. */
  method GetConsent(storage: LocalStorage, hasWindow: bool, now: int) returns (r: Option<ConsentData>)
    modifies storage
    ensures r == ReadConsent(old(storage.items), hasWindow, now)
    ensures storage.items == if hasWindow && Expired(old(storage.items), now)
                             then old(storage.items) - {ConsentKey, ConsentTimestampKey}
                             else old(storage.items)
  {
    if !hasWindow {
      return None;
    }
    var consentStr := storage.GetItem(ConsentKey);
    var timestampStr := storage.GetItem(ConsentTimestampKey);
    if consentStr.None? || consentStr.value == "" || timestampStr.None? || timestampStr.value == "" {
      return None;
    }
    var timestamp := ParseInt(timestampStr.value);
    if !IsConsentValid(timestamp, now) {
      ClearConsent(storage, hasWindow);
      return None;
    }
    var status := consentStr.value;
    var analyticsEnabled := status == "accepted";
    return Some(ConsentData(status, timestamp.value, analyticsEnabled));
  }

  /** `setConsent`: stores the status and `now` as decimal text, and returns the detail of the
      `consentchange` event it dispatches (`None` when there is no window and nothing happens). */
  method SetConsent(storage: LocalStorage, hasWindow: bool, status: ConsentStatus, now: int) returns (event: Option<ConsentData>)
    modifies storage
    ensures hasWindow ==> storage.items == old(storage.items)[ConsentKey := StatusText(status)][ConsentTimestampKey := IntToString(now)]
    ensures hasWindow ==> event == Some(ConsentData(StatusText(status), now, status == Accepted))
    ensures !hasWindow ==> storage.items == old(storage.items) && event.None?
  {
    if !hasWindow {
      return None;
    }
    var timestamp := now;
    storage.SetItem(ConsentKey, StatusText(status));
    storage.SetItem(ConsentTimestampKey, IntToString(timestamp));
    event := Some(ConsentData(StatusText(status), timestamp, status == Accepted));
  }

  /** `clearConsent`: removes both keys. */
  method ClearConsent(storage: LocalStorage, hasWindow: bool)
    modifies storage
    ensures hasWindow ==> storage.items == old(storage.items) - {ConsentKey, ConsentTimestampKey}
    ensures !hasWindow ==> storage.items == old(storage.items)
  {
    if !hasWindow {
      return;
    }
    storage.RemoveItem(ConsentKey);
    storage.RemoveItem(ConsentTimestampKey);
    assert storage.items == old(storage.items) - {ConsentKey} - {ConsentTimestampKey};
  }

  /** `isAnalyticsEnabled`: the consent read is valid and its status is `accepted`. */
  method IsAnalyticsEnabled(storage: LocalStorage, hasWindow: bool, now: int) returns (enabled: bool)
    modifies storage
    ensures var c := ReadConsent(old(storage.items), hasWindow, now);
      enabled <==> c.Some? && c.value.status == "accepted"
    ensures storage.items == if hasWindow && Expired(old(storage.items), now)
                             then old(storage.items) - {ConsentKey, ConsentTimestampKey} else old(storage.items)
  {
    var consent := GetConsent(storage, hasWindow, now);
    enabled := consent.Some? && consent.value.analyticsEnabled;
  }

  /** `shouldShowConsentBanner`: no valid consent could be read. */
  method ShouldShowConsentBanner(storage: LocalStorage, hasWindow: bool, now: int) returns (show: bool)
    modifies storage
    ensures show <==> ReadConsent(old(storage.items), hasWindow, now).None?
    ensures storage.items == if hasWindow && Expired(old(storage.items), now)
                             then old(storage.items) - {ConsentKey, ConsentTimestampKey} else old(storage.items)
  {
    var consent := GetConsent(storage, hasWindow, now);
    show := consent.None?;
  }

  /** A consent set at `now` reads back, unchanged, until a year has passed. */
  lemma ReadAfterSet(items: map<string, string>, status: ConsentStatus, now: int, later: int)
    requires later < now + ConsentExpiryMs
    ensures ReadConsent(items[ConsentKey := StatusText(status)][ConsentTimestampKey := IntToString(now)], true, later)
         == Some(ConsentData(StatusText(status), now, status == Accepted))
  {
    ParseIntOfIntToString(now);
  }

  /** From a year after it was set, the consent reads as missing (and reading clears it). */
  lemma ExpiresAfterAYear(items: map<string, string>, status: ConsentStatus, now: int, later: int)
    requires later >= now + ConsentExpiryMs
    ensures var stored := items[ConsentKey := StatusText(status)][ConsentTimestampKey := IntToString(now)];
      ReadConsent(stored, true, later).None? && Expired(stored, later)
  {
    ParseIntOfIntToString(now);
  }

  /** Without a window every read is `null`. */
  lemma NoWindowNoConsent(items: map<string, string>, now: int)
    ensures ReadConsent(items, false, now).None?
  {
  }

  /** Only a stored `accepted` status enables analytics. */
  lemma AnalyticsOnlyWhenAccepted(items: map<string, string>, now: int)
    ensures var c := ReadConsent(items, true, now);
      c.Some? && c.value.analyticsEnabled ==> items[ConsentKey] == "accepted"
  {
  }

  /** The boundary, in milliseconds of a 365-day year: a consent set at `now` still reads back one
      millisecond before the year is over, and no longer reads at the year's end. */
  lemma ExpiryBoundary(items: map<string, string>, status: ConsentStatus, now: int)
    ensures var stored := items[ConsentKey := StatusText(status)][ConsentTimestampKey := IntToString(now)];
      && ReadConsent(stored, true, now + 365 * 24 * 60 * 60 * 1000 - 1).Some?
      && ReadConsent(stored, true, now + 365 * 24 * 60 * 60 * 1000).None?
  {
    ReadAfterSet(items, status, now, now + 365 * 24 * 60 * 60 * 1000 - 1);
    ExpiresAfterAYear(items, status, now, now + 365 * 24 * 60 * 60 * 1000);
  }
}
