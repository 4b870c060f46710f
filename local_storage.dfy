/** The persistent-value mirror of src/useLocalStorage.ts: an in-memory value
    kept in step with an entry of the browser's local storage and a cookie.
    JSON.stringify and JSON.parse are abstract functions (either may throw,
    modelled as None); which storage or cookie write throws is chosen by flags. */
module LocalStorage {
  import opened Wrappers

  /** Name of the cookie that mirrors the storage entry `key`. */
  function CookieName(key: string): (name: string)
    ensures |name| == |key| + 3 && name[..3] == "ls-" && name[3..] == key
  {
    "ls-" + key
  }

  /** Different keys are mirrored under different cookies. */
  lemma CookieNameInjective(k1: string, k2: string)
    ensures CookieName(k1) == CookieName(k2) ==> k1 == k2
  {
  }

  /** What the hook is given: its key and initial value, and the JSON
      runtime's serialiser and parser (None when they throw). */
  datatype Settings<!T> = Settings(key: string, initialValue: T, stringify: T -> Option<string>, parse: string -> Option<T>)

  /** Which writes throw: `localStorage.setItem` (quota, access denied) and `Cookies.set`. */
  datatype Faults = Faults(storageWrite: bool, cookieWrite: bool)

  /** No write throws. */
  const NoFaults := Faults(false, false)

  /** The in-memory value and the two string-to-string stores it is mirrored into. */
  datatype MirrorState<T> = MirrorState(value: T, storage: map<string, string>, cookies: map<string, string>)

  /** `setValue(v)`: the in-memory value becomes `v` first; then, inside one
      try, the serialised text goes to storage under the key and then to the
      cookie. The first throw ends the try and is swallowed; nothing already
      done is undone. */
  function SetValueSpec<T>(cfg: Settings<T>, st: MirrorState<T>, v: T, faults: Faults): (r: MirrorState<T>)
    // no rollback: the value is v whatever fails
    ensures r.value == v
    // only the hook's own storage entry and cookie are touched
    ensures r.storage - {cfg.key} == st.storage - {cfg.key}
    ensures r.cookies - {CookieName(cfg.key)} == st.cookies - {CookieName(cfg.key)}
    // a failed serialisation or storage write leaves both stores as they were
    ensures cfg.stringify(v).None? || faults.storageWrite ==> r.storage == st.storage && r.cookies == st.cookies
    // otherwise storage holds the text, and the cookie does too unless its write failed
    ensures cfg.stringify(v).Some? && !faults.storageWrite ==>
      && r.storage == st.storage[cfg.key := cfg.stringify(v).value]
      && r.cookies == if faults.cookieWrite then st.cookies else st.cookies[CookieName(cfg.key) := cfg.stringify(v).value]
  {
    var updated := st.(value := v);
    match cfg.stringify(v)
    case None => updated
    case Some(text) =>
      if faults.storageWrite then updated
      else
        var stored := updated.(storage := updated.storage[cfg.key := text]);
        if faults.cookieWrite then stored
        else stored.(cookies := stored.cookies[CookieName(cfg.key) := text])
  }

  /** Storage and cookie agree on the hook's key. */
  ghost predicate Mirrored<T>(cfg: Settings<T>, st: MirrorState<T>)
  {
    cfg.key in st.storage && CookieName(cfg.key) in st.cookies && st.storage[cfg.key] == st.cookies[CookieName(cfg.key)]
  }

  /** When serialisation and both writes succeed, storage and cookie hold the
      same text, and that text is the serialised value. */
  lemma SetValueMirrors<T>(cfg: Settings<T>, st: MirrorState<T>, v: T)
    requires cfg.stringify(v).Some?
    ensures Mirrored(cfg, SetValueSpec(cfg, st, v, NoFaults))
    ensures SetValueSpec(cfg, st, v, NoFaults).storage[cfg.key] == cfg.stringify(v).value
  {
  }

  /** The value `getValue` hands to `setValue`: the initial value when reading
      storage throws, when the item is missing or empty (falsy), or when it
      does not parse; otherwise what it parses to. */
  function Retrieved<T>(cfg: Settings<T>, storage: map<string, string>, readFails: bool): (v: T)
    ensures readFails || cfg.key !in storage || storage[cfg.key] == "" ==> v == cfg.initialValue
    ensures !readFails && cfg.key in storage && storage[cfg.key] != "" ==>
      v == (if cfg.parse(storage[cfg.key]).Some? then cfg.parse(storage[cfg.key]).value else cfg.initialValue)
  {
    if readFails || cfg.key !in storage || storage[cfg.key] == "" then cfg.initialValue
    else match cfg.parse(storage[cfg.key])
      case Some(parsed) => parsed
      case None => cfg.initialValue
  }

  /** `getValue()`: read the item and call `setValue` with what was retrieved.
      `setValue` swallows its own errors, so exactly one call happens. */
  function GetValueSpec<T>(cfg: Settings<T>, st: MirrorState<T>, readFails: bool, faults: Faults): (r: MirrorState<T>)
    ensures r.value == Retrieved(cfg, st.storage, readFails)
    // an absent, empty or unparseable item gives the initial value, which is written back when it can be
    ensures Retrieved(cfg, st.storage, readFails) == cfg.initialValue && cfg.stringify(cfg.initialValue).Some? && !faults.storageWrite ==>
      r.storage == st.storage[cfg.key := cfg.stringify(cfg.initialValue).value]
    ensures r.storage - {cfg.key} == st.storage - {cfg.key}
    ensures r.cookies - {CookieName(cfg.key)} == st.cookies - {CookieName(cfg.key)}
  {
    SetValueSpec(cfg, st, Retrieved(cfg, st.storage, readFails), faults)
  }

  /** Round trip: a value written with a successful storage write is read back
      by a later `getValue`, whatever the in-memory value is by then (a reload
      starts again from the initial value), provided parsing undoes
      serialisation and serialisation never yields the empty string. */
  lemma RoundTrip<T>(cfg: Settings<T>, st: MirrorState<T>, v: T, faults: Faults, later: T, faults': Faults)
    requires cfg.stringify(v).Some? && cfg.stringify(v).value != ""
    requires cfg.parse(cfg.stringify(v).value) == Some(v)
    requires !faults.storageWrite
    ensures GetValueSpec(cfg, SetValueSpec(cfg, st, v, faults).(value := later), false, faults').value == v
  {
  }

  /** An unparseable stored item never surfaces as an error: the value falls
      back to the initial value and the item is replaced by its serialisation
      when that write succeeds. */
  lemma UnparseableFallsBack<T>(cfg: Settings<T>, st: MirrorState<T>, faults: Faults)
    requires cfg.key in st.storage && st.storage[cfg.key] != ""
    requires cfg.parse(st.storage[cfg.key]).None?
    ensures GetValueSpec(cfg, st, false, faults).value == cfg.initialValue
    ensures cfg.stringify(cfg.initialValue).Some? && !faults.storageWrite ==>
      GetValueSpec(cfg, st, false, faults).storage[cfg.key] == cfg.stringify(cfg.initialValue).value
  {
  }

  /** A call the component makes on the hook. */
  datatype Call<T> = SetValue(v: T, faults: Faults) | GetValue(readFails: bool, faults: Faults)

  function Perform<T>(cfg: Settings<T>, st: MirrorState<T>, call: Call<T>): MirrorState<T>
  {
    match call
    case SetValue(v, faults) => SetValueSpec(cfg, st, v, faults)
    case GetValue(readFails, faults) => GetValueSpec(cfg, st, readFails, faults)
  }

  /** The state after the calls, in order. */
  function Replay<T>(cfg: Settings<T>, st: MirrorState<T>, calls: seq<Call<T>>): MirrorState<T>
    decreases |calls|
  {
    if calls == [] then st else Replay(cfg, Perform(cfg, st, calls[0]), calls[1..])
  }

  /** However many calls are made and whichever of them fail, every storage
      entry but the key and every cookie but `ls-<key>` stay as they were. */
  lemma {:induction false} ReplayTouchesOnlyOwnEntries<T>(cfg: Settings<T>, st: MirrorState<T>, calls: seq<Call<T>>)
    ensures Replay(cfg, st, calls).storage - {cfg.key} == st.storage - {cfg.key}
    ensures Replay(cfg, st, calls).cookies - {CookieName(cfg.key)} == st.cookies - {CookieName(cfg.key)}
    decreases |calls|
  {
    if calls != [] {
      var next := Perform(cfg, st, calls[0]);
      assert next.storage - {cfg.key} == st.storage - {cfg.key};
      assert next.cookies - {CookieName(cfg.key)} == st.cookies - {CookieName(cfg.key)};
      ReplayTouchesOnlyOwnEntries(cfg, next, calls[1..]);
    }
  }

  /** The hook's state, updated in place by `setValue` and `getValue`. */
  class Mirror<T> {
    const settings: Settings<T>
    var storedValue: T
    var storage: map<string, string>
    var cookies: map<string, string>

    ghost function State(): MirrorState<T>
      reads this
    {
      MirrorState(storedValue, storage, cookies)
    }

    /** The hook mounted over the browser's current stores, holding its initial value. */
    constructor (settings: Settings<T>, storage: map<string, string>, cookies: map<string, string>)
      ensures this.settings == settings
      ensures State() == MirrorState(settings.initialValue, storage, cookies)
    {
      this.settings := settings;
      storedValue := settings.initialValue;
      this.storage := storage;
      this.cookies := cookies;
    }

    method SetValue(value: T, faults: Faults)
      modifies this
      ensures State() == SetValueSpec(settings, old(State()), value, faults)
      ensures storedValue == value
    {
      storedValue := value;
      var text := settings.stringify(value);
      if text.None? {
        return;  // JSON.stringify threw; the catch only logs
      }
      if faults.storageWrite {
        return;  // setItem threw before the cookie was written
      }
      storage := storage[settings.key := text.value];
      // The second JSON.stringify of the same value gives the same text.
      if faults.cookieWrite {
        return;
      }
      cookies := cookies[CookieName(settings.key) := text.value];
    }

    method GetValue(readFails: bool, faults: Faults)
      modifies this
      ensures State() == GetValueSpec(settings, old(State()), readFails, faults)
    {
      var next := settings.initialValue;
      if !readFails && settings.key in storage {
        var item := storage[settings.key];
        if item != "" {
          var parsed := settings.parse(item);
          if parsed.Some? {
            next := parsed.value;
          }
          // otherwise JSON.parse threw and the catch falls back to the initial value
        }
      }
      SetValue(next, faults);
    }
  }
}
