/** The JavaScript SMS service's use of its key-value store: the lazily
    created storage instance (the native MMKV store, or an in-memory
    dictionary when creating it throws), the log of received messages kept
    under `received_messages`, and two lookups with defaults. */
module SmsService {
  import opened Common
  import opened Decimal

  /** One entry of the received-messages log. */
  datatype ReceivedSms = ReceivedSms(id: string, phoneNumber: string, message: string,
                                     timestamp: string, status: string)

  /** A value held by the store: a string, a boolean, or the JSON text of a
      received-messages list, which is kept here as the list it encodes. */
  datatype StoredValue = Text(s: string) | Flag(b: bool) | ReceivedLog(entries: seq<ReceivedSms>)

  /** JavaScript truthiness. A list's JSON text is never empty. */
  predicate Truthy(v: StoredValue)
  {
    match v
    case Text(s) => s != ""
    case Flag(b) => b
    case ReceivedLog(_) => true
  }

  predicate IsString(v: StoredValue)
  {
    v.Text? || v.ReceivedLog?
  }

  datatype Backend = Native | Fallback

  const ReceivedMessagesKey := "received_messages"
  const DevicePhoneNumberKey := "device_phone_number"
  const IsDefaultSmsAppKey := "is_default_sms_app"
  const DefaultPhoneNumber := "+1 (555) 000-0000"
  const ReceivedIdPrefix := "received_"
  const ReceivedStatus := "received"

  /** `getString(key)`, with `None` for `null`/`undefined`. The native store
      answers only for strings; the fallback answers `dict[key] || null`, so
      it returns any truthy value and hides an empty string. */
  function StringLookup(backend: Backend, dict: map<string, StoredValue>, key: string): (r: Option<StoredValue>)
    ensures r.Some? ==> key in dict && r.value == dict[key]
    ensures backend == Native ==> (r.Some? <==> key in dict && IsString(dict[key]))
    ensures backend == Fallback ==> (r.Some? <==> key in dict && Truthy(dict[key]))
  {
    if key !in dict then None
    else if backend == Native then (if IsString(dict[key]) then Some(dict[key]) else None)
    else if Truthy(dict[key]) then Some(dict[key]) else None
  }

  /** `getBoolean(key)`. The native store answers only for booleans; the
      fallback answers `dict[key] || false`, which is never `undefined`. */
  function BooleanLookup(backend: Backend, dict: map<string, StoredValue>, key: string): (r: Option<StoredValue>)
    ensures backend == Native ==> (r.Some? <==> key in dict && dict[key].Flag?)
    ensures backend == Native && r.Some? ==> r.value == dict[key]
    ensures backend == Fallback ==> r.Some?
    ensures backend == Fallback && r.Some? ==>
              r.value == (if key in dict && Truthy(dict[key]) then dict[key] else Flag(false))
  {
    if backend == Native then (if key in dict && dict[key].Flag? then Some(dict[key]) else None)
    else if key in dict && Truthy(dict[key]) then Some(dict[key]) else Some(Flag(false))
  }

  /** A non-empty string that was `set` is what `getString` returns, on
      either backend. */
  lemma SetThenGetString(backend: Backend, dict: map<string, StoredValue>, key: string, value: StoredValue)
    requires IsString(value) && Truthy(value)
    ensures StringLookup(backend, dict[key := value], key) == Some(value)
  {
  }

  /** The fallback reads a stored empty string as `null`, exactly as it
      reads an absent key, where the native store returns `""`. */
  lemma FallbackHidesEmptyString(dict: map<string, StoredValue>, key: string)
    ensures StringLookup(Fallback, dict[key := Text("")], key) == None
    ensures StringLookup(Fallback, dict - {key}, key) == None
    ensures StringLookup(Native, dict[key := Text("")], key) == Some(Text(""))
  {
  }

  /** The fallback's `getBoolean` of an absent key is `false`. */
  lemma FallbackBooleanDefaultsFalse(dict: map<string, StoredValue>, key: string)
    requires key !in dict
    ensures BooleanLookup(Fallback, dict, key) == Some(Flag(false))
  {
  }

  /** `delete(key)` changes no other key's reading. */
  lemma DeleteKeepsOthers(backend: Backend, dict: map<string, StoredValue>, key: string, other: string)
    requires other != key
    ensures StringLookup(backend, dict - {key}, other) == StringLookup(backend, dict, other)
    ensures BooleanLookup(backend, dict - {key}, other) == BooleanLookup(backend, dict, other)
    ensures StringLookup(backend, dict - {key}, key) == None
  {
  }

  /** `JSON.parse(storage.getString("received_messages") || "[]")`, ready to
      `push` to: `None` when that throws, which happens for any stored
      truthy value that is not a list's JSON text. */
  function ReadLog(raw: Option<StoredValue>): (r: Option<seq<ReceivedSms>>)
    ensures (raw.None? || !Truthy(raw.value)) ==> r == Some([])
    ensures raw.Some? && raw.value.ReceivedLog? ==> r == Some(raw.value.entries)
    ensures r.None? <==> raw.Some? && Truthy(raw.value) && !raw.value.ReceivedLog?
  {
    match raw
    case None => Some([])
    case Some(v) =>
      if !Truthy(v) then Some([])
      else if v.ReceivedLog? then Some(v.entries)
      else None
  }

  /** The entry `saveReceivedSMS` appends at millisecond `now`, stamped
      `isoNow`. */
  function NewReceived(phoneNumber: string, message: string, now: nat, isoNow: string): (e: ReceivedSms)
    ensures e.status == ReceivedStatus && e.phoneNumber == phoneNumber && e.message == message
    ensures HasPrefix(e.id, ReceivedIdPrefix)
  {
    PrefixOfConcat(ReceivedIdPrefix, ToDecimal(now));
    ReceivedSms(ReceivedIdPrefix + ToDecimal(now), phoneNumber, message, isoNow, ReceivedStatus)
  }

  /** The store after `saveReceivedSMS`, or `None` when it throws and
      writes nothing. */
  function AfterSave(backend: Backend, dict: map<string, StoredValue>, phoneNumber: string,
                     message: string, now: nat, isoNow: string): (r: Option<map<string, StoredValue>>)
    ensures r.None? <==> ReadLog(StringLookup(backend, dict, ReceivedMessagesKey)).None?
    ensures r.Some? ==> r.value.Keys == dict.Keys + {ReceivedMessagesKey}
    ensures r.Some? ==> forall k :: k in dict && k != ReceivedMessagesKey ==> r.value[k] == dict[k]
  {
    match ReadLog(StringLookup(backend, dict, ReceivedMessagesKey))
    case None => None
    case Some(log) =>
      Some(dict[ReceivedMessagesKey := ReceivedLog(log + [NewReceived(phoneNumber, message, now, isoNow)])])
  }

  /** The log a store holds, as `saveReceivedSMS` would read it. */
  function LogOf(backend: Backend, dict: map<string, StoredValue>): Option<seq<ReceivedSms>>
  {
    ReadLog(StringLookup(backend, dict, ReceivedMessagesKey))
  }

  /** Saving appends exactly one entry, at the end, with status
      `"received"`, and leaves the earlier entries as they were. */
  lemma SaveAppendsOne(backend: Backend, dict: map<string, StoredValue>, phoneNumber: string,
                       message: string, now: nat, isoNow: string)
    requires LogOf(backend, dict).Some?
    ensures var after := AfterSave(backend, dict, phoneNumber, message, now, isoNow);
            var log := LogOf(backend, dict).value;
            after.Some? && LogOf(backend, after.value).Some? &&
            var log' := LogOf(backend, after.value).value;
            |log'| == |log| + 1 && log'[..|log|] == log &&
            log'[|log|] == NewReceived(phoneNumber, message, now, isoNow) &&
            log'[|log|].status == ReceivedStatus
  {
    var log := LogOf(backend, dict).value;
    var e := NewReceived(phoneNumber, message, now, isoNow);
    var after := dict[ReceivedMessagesKey := ReceivedLog(log + [e])];
    assert AfterSave(backend, dict, phoneNumber, message, now, isoNow) == Some(after);
    assert LogOf(backend, after) == Some(log + [e]);
    assert (log + [e])[..|log|] == log;
  }

  /** A store with no log yet (or an empty string in its place) ends up
      with a one-entry log. */
  lemma SaveStartsLog(backend: Backend, dict: map<string, StoredValue>, phoneNumber: string,
                      message: string, now: nat, isoNow: string)
    requires ReceivedMessagesKey !in dict
    ensures var after := AfterSave(backend, dict, phoneNumber, message, now, isoNow);
            after.Some? && LogOf(backend, after.value) == Some([NewReceived(phoneNumber, message, now, isoNow)])
  {
    var e := NewReceived(phoneNumber, message, now, isoNow);
    assert [] + [e] == [e];
  }

  /** `getDevicePhoneNumber`: the stored number when truthy, else the
      placeholder. */
  function PhoneOrDefault(raw: Option<StoredValue>): (r: StoredValue)
    ensures raw.Some? && Truthy(raw.value) ==> r == raw.value
    ensures !(raw.Some? && Truthy(raw.value)) ==> r == Text(DefaultPhoneNumber)
    ensures Truthy(r)
  {
    if raw.Some? && Truthy(raw.value) then raw.value else Text(DefaultPhoneNumber)
  }

  /** `isDefaultSMSApp`: the stored flag when truthy, else `false`. */
  function FlagOrFalse(raw: Option<StoredValue>): (r: StoredValue)
    ensures raw.Some? && Truthy(raw.value) ==> r == raw.value
    ensures !(raw.Some? && Truthy(raw.value)) ==> r == Flag(false)
    ensures Truthy(r) <==> raw.Some? && Truthy(raw.value)
  {
    if raw.Some? && Truthy(raw.value) then raw.value else Flag(false)
  }

  /** The store a fresh instance starts from: the native store's persisted
      entries, or an empty fallback dictionary. */
  function InitialEntries(created: Option<map<string, StoredValue>>): map<string, StoredValue>
  {
    if created.Some? then created.value else map[]
  }

  function InitialBackend(created: Option<map<string, StoredValue>>): Backend
  {
    if created.Some? then Native else Fallback
  }

  /** The storage instance: which backend it is and what it holds. */
  class Storage {
    const backend: Backend
    var dict: map<string, StoredValue>

    constructor (backend: Backend, initial: map<string, StoredValue>)
      ensures this.backend == backend && dict == initial
    {
      this.backend := backend;
      dict := initial;
    }

    function GetString(key: string): (r: Option<StoredValue>)
      reads this
      ensures r.Some? ==> key in dict && r.value == dict[key]
      ensures key in dict && dict[key].Text? && Truthy(dict[key]) ==> r == Some(dict[key])
    {
      StringLookup(backend, dict, key)
    }

    function GetBoolean(key: string): (r: Option<StoredValue>)
      reads this
      ensures key in dict && dict[key] == Flag(true) ==> r == Some(Flag(true))
      ensures r.Some? && r.value != Flag(false) ==> key in dict && r.value == dict[key]
    {
      BooleanLookup(backend, dict, key)
    }

    function GetAllKeys(): (r: set<string>)
      reads this
      ensures forall k :: k in r <==> k in dict
    {
      dict.Keys
    }

    method Set(key: string, value: StoredValue)
      modifies this
      ensures dict == old(dict)[key := value]
    {
      dict := dict[key := value];
    }

    method Delete(key: string)
      modifies this
      ensures dict == old(dict) - {key}
    {
      dict := dict - {key};
    }

    /** `Object.keys(store).forEach(key => delete store[key])`. */
    method ClearAll()
      modifies this
      ensures dict == map[] && GetAllKeys() == {}
    {
      var keys := dict.Keys;
      while keys != {}
        invariant dict.Keys == keys
        decreases keys
      {
        var k :| k in keys;
        Delete(k);
        keys := keys - {k};
      }
    }
  }

  /** The module-level state of the service: `storageInstance`. */
  class SmsServiceState {
    var storageInstance: Storage?

    constructor ()
      ensures storageInstance == null
    {
      storageInstance := null;
    }

    /** The entries `getStorage()` will hand out: the instance's, or those
        of the instance about to be created. */
    function CurrentEntries(created: Option<map<string, StoredValue>>): map<string, StoredValue>
      reads this, storageInstance
    {
      if storageInstance != null then storageInstance.dict else InitialEntries(created)
    }

    function CurrentBackend(created: Option<map<string, StoredValue>>): Backend
      reads this, storageInstance
    {
      if storageInstance != null then storageInstance.backend else InitialBackend(created)
    }

    /** `getStorage()`: creates the instance on the first call only, from
        `created` (the native store's entries, or `None` when `createMMKV`
        throws), and returns that same instance on every call. */
    method GetStorage(created: Option<map<string, StoredValue>>) returns (s: Storage)
      modifies this
      ensures storageInstance == s
      ensures old(storageInstance) != null ==> s == old(storageInstance)
      ensures old(storageInstance) == null ==> fresh(s)
      ensures s.backend == old(CurrentBackend(created)) && s.dict == old(CurrentEntries(created))
    {
      if storageInstance == null {
        var backend := InitialBackend(created);
        storageInstance := new Storage(backend, InitialEntries(created));
      }
      s := storageInstance;
    }

    /** `saveReceivedSMS(phoneNumber, message)` at millisecond `now`
        (`isoNow` is its ISO-8601 rendering); `saved` is false when parsing
        or pushing throws, and then nothing is written. */
    method SaveReceivedSms(created: Option<map<string, StoredValue>>, phoneNumber: string,
                           message: string, now: nat, isoNow: string) returns (saved: bool)
      modifies this, storageInstance
      ensures storageInstance != null
      ensures old(storageInstance) != null ==> storageInstance == old(storageInstance)
      ensures old(storageInstance) == null ==> fresh(storageInstance)
      ensures storageInstance.backend == old(CurrentBackend(created))
      ensures var after := AfterSave(old(CurrentBackend(created)), old(CurrentEntries(created)),
                                     phoneNumber, message, now, isoNow);
              (saved <==> after.Some?) &&
              storageInstance.dict == (if saved then after.value else old(CurrentEntries(created)))
    {
      var storage := GetStorage(created);
      var log := ReadLog(storage.GetString(ReceivedMessagesKey));
      if log.None? {
        saved := false;
        return;
      }
      storage.Set(ReceivedMessagesKey, ReceivedLog(log.value + [NewReceived(phoneNumber, message, now, isoNow)]));
      saved := true;
    }

    /** `getDevicePhoneNumber()`. */
    method GetDevicePhoneNumber(created: Option<map<string, StoredValue>>) returns (r: StoredValue)
      modifies this
      ensures r == PhoneOrDefault(StringLookup(old(CurrentBackend(created)), old(CurrentEntries(created)),
                                               DevicePhoneNumberKey))
      ensures storageInstance != null
      ensures old(storageInstance) != null ==> storageInstance == old(storageInstance)
      ensures old(storageInstance) == null ==> fresh(storageInstance)
      ensures storageInstance.backend == old(CurrentBackend(created))
      ensures storageInstance.dict == old(CurrentEntries(created))
    {
      var storage := GetStorage(created);
      r := PhoneOrDefault(storage.GetString(DevicePhoneNumberKey));
    }

    /** `isDefaultSMSApp()`. */
    method IsDefaultSmsApp(created: Option<map<string, StoredValue>>) returns (r: StoredValue)
      modifies this
      ensures r == FlagOrFalse(BooleanLookup(old(CurrentBackend(created)), old(CurrentEntries(created)),
                                             IsDefaultSmsAppKey))
      ensures storageInstance != null
      ensures old(storageInstance) != null ==> storageInstance == old(storageInstance)
      ensures old(storageInstance) == null ==> fresh(storageInstance)
      ensures storageInstance.backend == old(CurrentBackend(created))
      ensures storageInstance.dict == old(CurrentEntries(created))
    {
      var storage := GetStorage(created);
      r := FlagOrFalse(storage.GetBoolean(IsDefaultSmsAppKey));
    }
  }
}
