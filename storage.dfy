/** The key-value stores behind the settings (`SettingsStorageStrategyType`,
    SOLARdVPNCommunityCoreiOS/Services/Storage/StorageStrategy): a mutable
    dictionary from keys to encoded values. Reading a key back with a type
    gives the value only when it was written with that type. */
module KeyValueStores {
  import opened Wrappers

  /** A value as the store keeps it, tagged with the type it was written
      with (a `Date` as seconds). */
  datatype StoredValue = TextValue(text: string) | IntValue(number: int) | DateValue(seconds: int)

  /** `object(ofType: String.self, forKey:)` on a dictionary. */
  function TextIn(objects: map<string, StoredValue>, key: string): (r: Option<string>)
    ensures r.Some? <==> key in objects && objects[key].TextValue?
    ensures r.Some? ==> objects[key] == TextValue(r.value)
  {
    if key in objects && objects[key].TextValue? then Some(objects[key].text) else None
  }

  /** `object(ofType: Int.self, forKey:)` on a dictionary. */
  function IntIn(objects: map<string, StoredValue>, key: string): (r: Option<int>)
    ensures r.Some? <==> key in objects && objects[key].IntValue?
    ensures r.Some? ==> objects[key] == IntValue(r.value)
  {
    if key in objects && objects[key].IntValue? then Some(objects[key].number) else None
  }

  /** `object(ofType: Date.self, forKey:)` on a dictionary. */
  function DateIn(objects: map<string, StoredValue>, key: string): (r: Option<int>)
    ensures r.Some? <==> key in objects && objects[key].DateValue?
    ensures r.Some? ==> objects[key] == DateValue(r.value)
  {
    if key in objects && objects[key].DateValue? then Some(objects[key].seconds) else None
  }

  /** One store (user defaults or a keychain service). A store that is not
      `available` (a keychain the system refuses access to) fails every
      write and every removal and keeps its contents. */
  class KeyValueStore {
    var objects: map<string, StoredValue>
    const available: bool

    constructor (available: bool)
      ensures objects == map[] && this.available == available
    {
      objects := map[];
      this.available := available;
    }

    /** `existsObject(forKey:)`: a key exists exactly when a read of some
        type gives its value. */
    predicate ExistsObject(key: string)
      reads this`objects
      ensures ExistsObject(key) <==> TextIn(objects, key).Some? || IntIn(objects, key).Some? || DateIn(objects, key).Some?
    {
      key in objects
    }

    /** `setObject(_:forKey:)`: reports whether the value was stored. */
    method SetObject(key: string, value: StoredValue) returns (ok: bool)
      modifies this`objects
      ensures ok == available
      ensures objects == if ok then old(objects)[key := value] else old(objects)
      ensures ok ==> ExistsObject(key)
    {
      ok := available;
      if ok {
        objects := objects[key := value];
      }
    }

    /** `removeObject(forKey:)`: removing a missing key succeeds. */
    method RemoveObject(key: string) returns (ok: bool)
      modifies this`objects
      ensures ok == available
      ensures objects == if ok then old(objects) - {key} else old(objects)
      ensures ok ==> !ExistsObject(key)
    {
      ok := available;
      if ok {
        objects := objects - {key};
      }
    }
  }
}

/** `GeneralSettingsStorage`
    (SOLARdVPNCommunityCoreiOS/Services/Storage/GeneralSettingsStorage/GeneralSettingsStorage.swift):
    wallet address, DNS choice and connection details, each under its own
    key of one store. */
module GeneralSettings {
  import opened Wrappers
  import opened KeyValueStores
  import opened DNSServerTypes

  /** The private `Keys` enum. */
  datatype SettingKey = WalletKey | DNSKey | LastSelectedNodeKey | LastSessionKey | SessionStart

  /** The key's raw value. */
  function KeyName(k: SettingKey): string
  {
    match k
    case WalletKey => "walletKey"
    case DNSKey => "dnsKey"
    case LastSelectedNodeKey => "lastSelectedNodeKey"
    case LastSessionKey => "lastSessionKey"
    case SessionStart => "sessionStart"
  }

  /** No two settings share a key. */
  lemma KeyNamesDistinct(a: SettingKey, b: SettingKey)
    ensures KeyName(a) == KeyName(b) <==> a == b
  {
  }

  /** `walletAddress`: "" when unset. */
  function WalletIn(objects: map<string, StoredValue>): string
  {
    match TextIn(objects, KeyName(WalletKey))
    case Some(w) => w
    case None => ""
  }

  /** `selectedDNS`: the default when unset or unrecognised. */
  function SelectedDNSIn(objects: map<string, StoredValue>): DNSServerType
  {
    match TextIn(objects, KeyName(DNSKey))
    case None => Default
    case Some(raw) =>
      match FromRawValue(raw)
      case None => Default
      case Some(t) => t
  }

  /** The dictionary after `set(wallet:)`, `set(dns:)` and the optional
      setters (nil clears the key). */
  function WithSetting(objects: map<string, StoredValue>, k: SettingKey, value: Option<StoredValue>): map<string, StoredValue>
  {
    match value
    case Some(v) => objects[KeyName(k) := v]
    case None => objects - {KeyName(k)}
  }

  /** `walletAddress` is "" when unset and the last wallet set otherwise;
      setting any other setting leaves it alone. */
  lemma WalletRoundTrip(objects: map<string, StoredValue>, wallet: string, k: SettingKey, v: Option<StoredValue>)
    ensures KeyName(WalletKey) !in objects ==> WalletIn(objects) == ""
    ensures WalletIn(WithSetting(objects, WalletKey, Some(TextValue(wallet)))) == wallet
    ensures k != WalletKey ==> WalletIn(WithSetting(objects, k, v)) == WalletIn(objects)
  {
  }

  /** `selectedDNS` is the default when unset or unrecognised, returns what
      `set(dns:)` stored, and does not move when another setting is set. */
  lemma DNSRoundTrip(objects: map<string, StoredValue>, t: DNSServerType, k: SettingKey, v: Option<StoredValue>)
    ensures TextIn(objects, KeyName(DNSKey)).None? ==> SelectedDNSIn(objects) == Handshake
    ensures (TextIn(objects, KeyName(DNSKey)).Some? && FromRawValue(objects[KeyName(DNSKey)].text).None?)
      ==> SelectedDNSIn(objects) == Handshake
    ensures SelectedDNSIn(WithSetting(objects, DNSKey, Some(TextValue(RawValue(t))))) == t
    ensures k != DNSKey ==> SelectedDNSIn(WithSetting(objects, k, v)) == SelectedDNSIn(objects)
  {
    RawValueRoundTrip(t);
  }

  /** The last node, session id and session start each read back as what
      was last set, nil included, and setting one leaves the others. */
  lemma ConnectInfoRoundTrip(objects: map<string, StoredValue>, node: Option<string>, id: Option<int>, start: Option<int>)
    ensures TextIn(WithSetting(objects, LastSelectedNodeKey, NodeValue(node)), KeyName(LastSelectedNodeKey)) == node
    ensures IntIn(WithSetting(objects, LastSessionKey, SessionIdValue(id)), KeyName(LastSessionKey)) == id
    ensures DateIn(WithSetting(objects, SessionStart, StartValue(start)), KeyName(SessionStart)) == start
    ensures IntIn(WithSetting(objects, LastSelectedNodeKey, NodeValue(node)), KeyName(LastSessionKey))
      == IntIn(objects, KeyName(LastSessionKey))
    ensures TextIn(WithSetting(objects, LastSessionKey, SessionIdValue(id)), KeyName(LastSelectedNodeKey))
      == TextIn(objects, KeyName(LastSelectedNodeKey))
    ensures DateIn(WithSetting(objects, LastSessionKey, SessionIdValue(id)), KeyName(SessionStart))
      == DateIn(objects, KeyName(SessionStart))
  {
  }

  function NodeValue(node: Option<string>): Option<StoredValue> {
    if node.Some? then Some(TextValue(node.value)) else None
  }

  function SessionIdValue(id: Option<int>): Option<StoredValue> {
    if id.Some? then Some(IntValue(id.value)) else None
  }

  function StartValue(start: Option<int>): Option<StoredValue> {
    if start.Some? then Some(DateValue(start.value)) else None
  }

  class GeneralSettingsStorage {
    const strategy: KeyValueStore

    constructor (strategy: KeyValueStore)
      ensures this.strategy == strategy
    {
      this.strategy := strategy;
    }

    /** Store one setting; the strategy's report is ignored, as in the
        source. */
    method Put(k: SettingKey, value: Option<StoredValue>)
      modifies strategy`objects
      ensures strategy.objects == if strategy.available then WithSetting(old(strategy.objects), k, value) else old(strategy.objects)
    {
      var ok;
      if value.Some? {
        ok := strategy.SetObject(KeyName(k), value.value);
      } else {
        ok := strategy.RemoveObject(KeyName(k));
      }
    }

    /** `set(wallet:)`. */
    method SetWallet(wallet: string)
      modifies strategy`objects
      ensures strategy.available ==> WalletAddress() == wallet && SelectedDNS() == old(SelectedDNS())
      ensures strategy.objects == if strategy.available then WithSetting(old(strategy.objects), WalletKey, Some(TextValue(wallet))) else old(strategy.objects)
    {
      WalletRoundTrip(strategy.objects, wallet, WalletKey, None);
      DNSRoundTrip(strategy.objects, Default, WalletKey, Some(TextValue(wallet)));
      Put(WalletKey, Some(TextValue(wallet)));
    }

    /** `walletAddress`: the stored text, or "" when the key is unset or
        holds a value of another type. */
    function WalletAddress(): (w: string)
      reads strategy`objects
      ensures TextIn(strategy.objects, KeyName(WalletKey)).Some? ==> w == strategy.objects[KeyName(WalletKey)].text
      ensures TextIn(strategy.objects, KeyName(WalletKey)).None? ==> w == ""
    {
      WalletIn(strategy.objects)
    }

    /** `set(dns:)`: stores the raw value. */
    method SetDNS(dns: DNSServerType)
      modifies strategy`objects
      ensures strategy.available ==> SelectedDNS() == dns && WalletAddress() == old(WalletAddress())
      ensures strategy.objects == if strategy.available then WithSetting(old(strategy.objects), DNSKey, Some(TextValue(RawValue(dns)))) else old(strategy.objects)
    {
      DNSRoundTrip(strategy.objects, dns, DNSKey, None);
      WalletRoundTrip(strategy.objects, "", DNSKey, Some(TextValue(RawValue(dns))));
      Put(DNSKey, Some(TextValue(RawValue(dns))));
    }

    /** `selectedDNS`: a choice other than the default was stored by its
        raw value; an unset key reads as the default. */
    function SelectedDNS(): (d: DNSServerType)
      reads strategy`objects
      ensures TextIn(strategy.objects, KeyName(DNSKey)).None? ==> d == Default
      ensures d != Default ==>
        TextIn(strategy.objects, KeyName(DNSKey)).Some? && FromRawValue(strategy.objects[KeyName(DNSKey)].text) == Some(d)
    {
      SelectedDNSIn(strategy.objects)
    }

    /** `set(lastSelectedNode:)`. */
    method SetLastSelectedNode(node: Option<string>)
      modifies strategy`objects
      ensures strategy.available ==> LastSelectedNode() == node
      ensures strategy.objects == if strategy.available then WithSetting(old(strategy.objects), LastSelectedNodeKey, NodeValue(node)) else old(strategy.objects)
    {
      ConnectInfoRoundTrip(strategy.objects, node, None, None);
      Put(LastSelectedNodeKey, NodeValue(node));
    }

    /** `lastSelectedNode()`: the stored text, nil when the key is unset or
        holds a value of another type. */
    function LastSelectedNode(): (n: Option<string>)
      reads strategy`objects
      ensures n.Some? <==> KeyName(LastSelectedNodeKey) in strategy.objects && strategy.objects[KeyName(LastSelectedNodeKey)].TextValue?
      ensures n.Some? ==> strategy.objects[KeyName(LastSelectedNodeKey)] == TextValue(n.value)
    {
      TextIn(strategy.objects, KeyName(LastSelectedNodeKey))
    }

    /** `set(sessionId:)`. */
    method SetSessionId(id: Option<int>)
      modifies strategy`objects
      ensures strategy.available ==> LastSessionId() == id
      ensures strategy.objects == if strategy.available then WithSetting(old(strategy.objects), LastSessionKey, SessionIdValue(id)) else old(strategy.objects)
    {
      ConnectInfoRoundTrip(strategy.objects, None, id, None);
      Put(LastSessionKey, SessionIdValue(id));
    }

    /** `lastSessionId()`: the stored number, nil when the key is unset or
        holds a value of another type. */
    function LastSessionId(): (id: Option<int>)
      reads strategy`objects
      ensures id.Some? <==> KeyName(LastSessionKey) in strategy.objects && strategy.objects[KeyName(LastSessionKey)].IntValue?
      ensures id.Some? ==> strategy.objects[KeyName(LastSessionKey)] == IntValue(id.value)
    {
      IntIn(strategy.objects, KeyName(LastSessionKey))
    }

    /** `set(sessionStart:)`. */
    method SetSessionStart(start: Option<int>)
      modifies strategy`objects
      ensures strategy.available ==> LastSessionStart() == start
      ensures strategy.objects == if strategy.available then WithSetting(old(strategy.objects), SessionStart, StartValue(start)) else old(strategy.objects)
    {
      ConnectInfoRoundTrip(strategy.objects, None, None, start);
      Put(SessionStart, StartValue(start));
    }

    /** `lastSessionStart()`: the stored date, nil when the key is unset or
        holds a value of another type. */
    function LastSessionStart(): (start: Option<int>)
      reads strategy`objects
      ensures start.Some? <==> KeyName(SessionStart) in strategy.objects && strategy.objects[KeyName(SessionStart)].DateValue?
      ensures start.Some? ==> strategy.objects[KeyName(SessionStart)] == DateValue(start.value)
    {
      DateIn(strategy.objects, KeyName(SessionStart))
    }
  }
}

/** The helpers of `StorageRouteCollection`
    (SOLARdVPNCommunityCoreiOS/Root/RouteCollections/Storage/StorageRouteCollection.swift):
    a registry of string values kept either in a safe store (the keychain)
    or in a common one (user defaults). */
module StorageRoutes {
  import opened Wrappers
  import opened KeyValueStores

  /** `LocalValue`: a key, its value and which store holds it. */
  datatype LocalValue = LocalValue(key: string, value: string, isSecure: bool)

  /** The HTTP statuses the handlers fail with. */
  datatype HttpError = BadRequest | Unauthorized | NotFound | InternalServerError

  /** `getValue(for:)` on the two dictionaries: the safe store wins. */
  function ValueIn(safe: map<string, StoredValue>, common: map<string, StoredValue>, key: string): (r: Result<LocalValue, HttpError>)
    ensures TextIn(safe, key).Some? ==> r == Success(LocalValue(key, TextIn(safe, key).value, true))
    ensures TextIn(safe, key).None? && TextIn(common, key).Some? ==> r == Success(LocalValue(key, TextIn(common, key).value, false))
    ensures r.Failure? <==> TextIn(safe, key).None? && TextIn(common, key).None?
    ensures r.Failure? ==> r.error == NotFound
  {
    match TextIn(safe, key)
    case Some(v) => Success(LocalValue(key, v, true))
    case None =>
      match TextIn(common, key)
      case Some(v) => Success(LocalValue(key, v, false))
      case None => Failure(NotFound)
  }

  class StorageRouteCollection {
    const commonStorage: KeyValueStore
    const safeStorage: KeyValueStore

    constructor (commonStorage: KeyValueStore, safeStorage: KeyValueStore)
      ensures this.commonStorage == commonStorage && this.safeStorage == safeStorage
    {
      this.commonStorage := commonStorage;
      this.safeStorage := safeStorage;
    }

    /** `getStorage(isSecure:)`. */
    function GetStorage(isSecure: bool): KeyValueStore
    {
      if isSecure then safeStorage else commonStorage
    }

    /** `getValue(for:)`: the secure store's text wins over the common
        store's, and the key is not found only when neither holds text. */
    function GetValueFor(key: string): (r: Result<LocalValue, HttpError>)
      reads safeStorage`objects, commonStorage`objects
      ensures TextIn(safeStorage.objects, key).Some? ==> r == Success(LocalValue(key, TextIn(safeStorage.objects, key).value, true))
      ensures TextIn(safeStorage.objects, key).None? && TextIn(commonStorage.objects, key).Some?
              ==> r == Success(LocalValue(key, TextIn(commonStorage.objects, key).value, false))
      ensures r.Failure? <==> TextIn(safeStorage.objects, key).None? && TextIn(commonStorage.objects, key).None?
      ensures r.Failure? ==> r.error == NotFound
    {
      ValueIn(safeStorage.objects, commonStorage.objects, key)
    }

    /** `deleteValue(for:)`: removal is attempted on both stores (common
        first), and succeeds only when both succeed. */
    method DeleteValueFor(key: string) returns (ok: bool)
      requires commonStorage != safeStorage
      modifies commonStorage`objects, safeStorage`objects
      ensures ok <==> commonStorage.available && safeStorage.available
      ensures commonStorage.objects == if commonStorage.available then old(commonStorage.objects) - {key} else old(commonStorage.objects)
      ensures safeStorage.objects == if safeStorage.available then old(safeStorage.objects) - {key} else old(safeStorage.objects)
    {
      var commonRemoved := commonStorage.RemoveObject(key);
      var safeRemoved := safeStorage.RemoveObject(key);
      ok := commonRemoved && safeRemoved;
    }

    /** The GET handler: a missing `key` query is a bad request. */
    method GetValue(key: Option<string>) returns (r: Result<LocalValue, HttpError>)
      ensures key.None? ==> r == Failure(BadRequest)
      ensures key.Some? ==> r == GetValueFor(key.value)
    {
      if key.None? {
        return Failure(BadRequest);
      }
      r := GetValueFor(key.value);
    }

    /** The DELETE handler. */
    method DeleteValue(key: Option<string>) returns (r: Result<(), HttpError>)
      requires commonStorage != safeStorage
      modifies commonStorage`objects, safeStorage`objects
      ensures key.None? ==> r == Failure(BadRequest) && unchanged(commonStorage, safeStorage)
      ensures key.Some? ==> (r.Success? <==> commonStorage.available && safeStorage.available)
      ensures r.Failure? && key.Some? ==> r.error == Unauthorized
      ensures r.Success? ==> GetValueFor(key.value) == Failure(NotFound)
    {
      if key.None? {
        return Failure(BadRequest);
      }
      var ok := DeleteValueFor(key.value);
      if !ok {
        return Failure(Unauthorized);
      }
      r := Success(());
    }

    /** The POST handler: the key is first removed from both stores, then
        the value is written to the store the value names. */
    method PostValue(value: LocalValue) returns (r: Result<(), HttpError>)
      requires commonStorage != safeStorage
      modifies commonStorage`objects, safeStorage`objects
      ensures r.Success? <==> commonStorage.available && safeStorage.available
      ensures !(commonStorage.available && safeStorage.available) ==> r == Failure(Unauthorized)
      ensures r.Success? ==>
        GetStorage(value.isSecure).objects == old(GetStorage(value.isSecure).objects)[value.key := TextValue(value.value)]
      ensures r.Success? ==> GetStorage(!value.isSecure).objects == old(GetStorage(!value.isSecure).objects) - {value.key}
      ensures r.Success? ==> GetValueFor(value.key) == Success(value)
    {
      var removed := DeleteValueFor(value.key);
      if !removed {
        return Failure(Unauthorized);
      }
      var stored := GetStorage(value.isSecure).SetObject(value.key, TextValue(value.value));
      if !stored {
        return Failure(InternalServerError);
      }
      r := Success(());
    }
  }
}

/** `SecurityService` (SOLARdVPNCommunityCoreiOS/Services/SecurityService/SecurityService.swift):
    the wallet's recovery words, checked on restore and kept in the keychain
    under a hash of the account. */
module SecurityServices {
  import opened Wrappers
  import opened Text
  import opened KeyValueStores

  datatype SecurityServiceError = EmptyInput | InvalidInput

  /** The raw value, which is also the error description. */
  function ErrorDescription(e: SecurityServiceError): string
  {
    match e
    case EmptyInput => "empty_input"
    case InvalidInput => "invalid_input"
  }

  /** The number of recovery words a wallet has. */
  const MnemonicsCount: nat := 24

  /** `restore(from:)`: an empty list is refused first; then the count and
      the words are checked against the word list; then the address is
      derived. The word list and the derivation belong to the wallet
      library and are parameters. */
  function Restore(mnemonics: seq<string>, wordList: set<string>, restoreAddress: seq<string> -> Option<string>): (r: Result<string, SecurityServiceError>)
    ensures mnemonics == [] ==> r == Failure(EmptyInput)
    ensures r.Success? <==>
      |mnemonics| == 24 && (forall k :: 0 <= k < |mnemonics| ==> mnemonics[k] in wordList) && restoreAddress(mnemonics).Some?
    ensures r.Success? ==> r.value == restoreAddress(mnemonics).value
    ensures mnemonics != [] && r.Failure? ==> r.error == InvalidInput
  {
    if mnemonics == [] then Failure(EmptyInput)
    else if |mnemonics| != MnemonicsCount || !(forall k :: 0 <= k < |mnemonics| ==> mnemonics[k] in wordList) then Failure(InvalidInput)
    else match restoreAddress(mnemonics)
      case None => Failure(InvalidInput)
      case Some(address) => Success(address)
  }

  /** A recovery word as the store can keep it: non-empty, no whitespace. */
  predicate IsWord(w: string) {
    w != [] && forall i :: 0 <= i < |w| ==> !IsWhitespace(w[i])
  }

  /** What `loadMnemonics` makes of the stored text: trimmed, then split at
      every space, empty pieces kept. */
  function WordsOf(stored: string): seq<string> {
    SplitAll(Trim(stored), {' '})
  }

  /** Words joined by single spaces read back as the same words. An empty
      list does not: it is stored as "" and reads back as one empty word. */
  lemma WordsRoundTrip(words: seq<string>)
    requires forall k :: 0 <= k < |words| ==> IsWord(words[k])
    ensures words != [] ==> WordsOf(Join(words, " ")) == words
    ensures words == [] ==> WordsOf(Join(words, " ")) == [""]
  {
    if words != [] {
      forall k | 0 <= k < |words| ensures NoneIn(words[k], {' '}) {
        assert IsWhitespace(' ');
      }
      JoinEnds(words, " ");
      TrimOfTrimmed(Join(words, " "));
      SplitAllJoin(words, ' ');
    } else {
      assert Trim([]) == [];
    }
  }

  /** The joined text starts with the first word's first character and ends
      with the last word's last one. */
  lemma {:induction false} JoinEnds(words: seq<string>, sep: string)
    requires words != [] && forall k :: 0 <= k < |words| ==> words[k] != []
    ensures Join(words, sep) != []
    ensures Join(words, sep)[0] == words[0][0]
    ensures Join(words, sep)[|Join(words, sep)| - 1] == words[|words| - 1][|words[|words| - 1]| - 1]
  {
    if |words| > 1 {
      JoinEnds(words[1..], sep);
    }
  }

  /** After the words are saved under a key, loading from that key gives
      them back. */
  lemma SavedWordsLoad(objects: map<string, StoredValue>, key: string, words: seq<string>)
    requires words != [] && forall k :: 0 <= k < |words| ==> IsWord(words[k])
    ensures TextIn(objects[key := TextValue(Join(words, " "))], key) == Some(Join(words, " "))
    ensures WordsOf(Join(words, " ")) == words
  {
    WordsRoundTrip(words);
  }

  class SecurityService {
    /** The keychain service holding the words. */
    const keychain: KeyValueStore
    /** `String.sha1()`, which lives in a hashing library. */
    const sha1: string -> string

    constructor (keychain: KeyValueStore, sha1: string -> string)
      ensures this.keychain == keychain && this.sha1 == sha1
    {
      this.keychain := keychain;
      this.sha1 := sha1;
    }

    /** `save(mnemonics:for:)`. */
    method Save(mnemonics: seq<string>, account: string) returns (ok: bool)
      modifies keychain`objects
      ensures ok == keychain.available
      ensures keychain.objects == if ok then old(keychain.objects)[sha1(account) := TextValue(Join(mnemonics, " "))] else old(keychain.objects)
      ensures ok ==> MnemonicsExists(account) && LoadMnemonics(account) == Some(WordsOf(Join(mnemonics, " ")))
    {
      ok := keychain.SetObject(sha1(account), TextValue(Join(mnemonics, " ")));
    }

    /** `loadMnemonics(for:)`. */
    function LoadMnemonics(account: string): (r: Option<seq<string>>)
      reads keychain`objects
      ensures r.Some? <==> TextIn(keychain.objects, sha1(account)).Some?
    {
      match TextIn(keychain.objects, sha1(account))
      case None => None
      case Some(stored) => Some(WordsOf(stored))
    }

    /** `mnemonicsExists(for:)`. */
    predicate MnemonicsExists(account: string)
      reads keychain`objects
      ensures LoadMnemonics(account).Some? ==> MnemonicsExists(account)
    {
      keychain.ExistsObject(sha1(account))
    }
  }
}
