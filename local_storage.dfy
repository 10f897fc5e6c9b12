/**
 * `useLocalStorage`: a state value mirrored under one storage key, read once when the hook
 * starts, written through `setValue` and cleared through `removeValue`; storage failures are
 * swallowed. The three key-specific hooks are instances of it.
 */
module LocalStorage {
  import opened Wrappers
  import opened Web

  const AuthTokenKey := "auth_token"
  const UserDataKey := "user_data"
  const RememberMeKey := "remember_me"

  /**
   * The value the hook starts from: the decoded stored item when there is a window, storage can
   * be read, the item is a non-empty string and it parses; `initialValue` in every other case.
   */
  function ReadInitial<T>(hasWindow: bool, accessible: bool, items: map<string, string>, key: string,
                          initialValue: T, codec: Codec<T>): (r: T)
    ensures !hasWindow || !accessible || key !in items || items[key] == "" ==> r == initialValue
    ensures hasWindow && accessible && key in items && items[key] != "" && codec.decode(items[key]).Some?
            ==> r == codec.decode(items[key]).value
    ensures hasWindow && accessible && key in items && items[key] != "" && codec.decode(items[key]).None?
            ==> r == initialValue
  {
    if !hasWindow || !accessible then initialValue
    else if key !in items || items[key] == "" then initialValue
    else match codec.decode(items[key])
      case Some(v) => v
      case None => initialValue
  }

  /** A value written under the key is what the next read gives back. */
  lemma ReadAfterWrite<T(!new)>(items: map<string, string>, key: string, initialValue: T, codec: Codec<T>, v: T)
    requires RoundTrips(codec)
    ensures ReadInitial(true, true, items[key := codec.encode(v)], key, initialValue, codec) == v
  {
    assert codec.decode(codec.encode(v)) == Some(v) && codec.encode(v) != "";
  }

  /** After the key is removed the next read gives the initial value. */
  lemma ReadAfterRemove<T>(hasWindow: bool, accessible: bool, items: map<string, string>, key: string,
                           initialValue: T, codec: Codec<T>)
    ensures ReadInitial(hasWindow, accessible, items - {key}, key, initialValue, codec) == initialValue
  {
  }

  /** A read depends on its own key only. */
  lemma ReadOwnKeyOnly<T>(hasWindow: bool, accessible: bool, items: map<string, string>, key: string,
                          other: string, s: string, initialValue: T, codec: Codec<T>)
    requires other != key
    ensures ReadInitial(hasWindow, accessible, items[other := s], key, initialValue, codec)
         == ReadInitial(hasWindow, accessible, items, key, initialValue, codec)
    ensures ReadInitial(hasWindow, accessible, items - {other}, key, initialValue, codec)
         == ReadInitial(hasWindow, accessible, items, key, initialValue, codec)
  {
    assert key in items ==> items[other := s][key] == items[key];
  }

  /** What `setValue` receives: a value, or a function of the current value. */
  datatype Update<!T> = Value(value: T) | Apply(f: T -> T)

  function NewValue<T>(u: Update<T>, current: T): T
  {
    match u
    case Value(v) => v
    case Apply(f) => f(current)
  }

  /** One instance of the hook over one key. */
  class LocalStorageHook<T(!new)> {
    const key: string
    const initialValue: T
    const codec: Codec<T>
    /** Whether `window` exists; it does not during server rendering. */
    const hasWindow: bool
    const store: Storage
    var storedValue: T

    /** The initial read. */
    constructor (key: string, initialValue: T, codec: Codec<T>, hasWindow: bool, store: Storage)
      ensures this.key == key && this.initialValue == initialValue && this.codec == codec
      ensures this.hasWindow == hasWindow && this.store == store
      ensures storedValue == ReadInitial(hasWindow, store.accessible, store.items, key, initialValue, codec)
    {
      this.key := key;
      this.initialValue := initialValue;
      this.codec := codec;
      this.hasWindow := hasWindow;
      this.store := store;
      storedValue := ReadInitial(hasWindow, store.accessible, store.items, key, initialValue, codec);
    }

    /**
     * `setValue`: the state takes the new value even when the write fails; the item under the key
     * is its encoding when there is a window and storage accepts it; no other key changes. When
     * the codec round-trips, a fresh read then gives the new value back.
     */
    method SetValue(u: Update<T>)
      modifies this, store
      ensures storedValue == NewValue(u, old(storedValue))
      ensures store.accessible == old(store.accessible)
      ensures store.items == if hasWindow && store.accessible then old(store.items)[key := codec.encode(storedValue)] else old(store.items)
      ensures hasWindow && store.accessible && RoundTrips(codec) ==>
                ReadInitial(hasWindow, store.accessible, store.items, key, initialValue, codec) == storedValue
    {
      var valueToStore := NewValue(u, storedValue);
      storedValue := valueToStore;
      if hasWindow {
        var _ := store.SetItem(key, codec.encode(valueToStore));
      }
      if hasWindow && store.accessible && RoundTrips(codec) {
        ReadAfterWrite(old(store.items), key, initialValue, codec, valueToStore);
      }
    }

    /**
     * `removeValue`: the state returns to the initial value and the key is deleted when there is a
     * window and storage allows it; a fresh read then gives the initial value.
     */
    method RemoveValue()
      modifies this, store
      ensures storedValue == initialValue
      ensures store.accessible == old(store.accessible)
      ensures store.items == if hasWindow && store.accessible then old(store.items) - {key} else old(store.items)
      ensures hasWindow && store.accessible ==>
                ReadInitial(hasWindow, store.accessible, store.items, key, initialValue, codec) == initialValue
    {
      storedValue := initialValue;
      if hasWindow {
        var _ := store.RemoveItem(key);
      }
    }
  }

  /** `useAuthToken`: the token under `auth_token`, `null` by default. */
  method UseAuthToken(codec: Codec<Option<string>>, hasWindow: bool, store: Storage)
    returns (h: LocalStorageHook<Option<string>>)
    ensures fresh(h) && h.key == AuthTokenKey && h.initialValue == None
    ensures h.codec == codec && h.hasWindow == hasWindow && h.store == store
    ensures h.storedValue == ReadInitial(hasWindow, store.accessible, store.items, AuthTokenKey, None, codec)
  {
    h := new LocalStorageHook(AuthTokenKey, None, codec, hasWindow, store);
  }

  /** `useUserData`: the user record under `user_data`, `null` by default. */
  method UseUserData<U(!new)>(codec: Codec<Option<U>>, hasWindow: bool, store: Storage)
    returns (h: LocalStorageHook<Option<U>>)
    ensures fresh(h) && h.key == UserDataKey && h.initialValue == None
    ensures h.codec == codec && h.hasWindow == hasWindow && h.store == store
    ensures h.storedValue == ReadInitial(hasWindow, store.accessible, store.items, UserDataKey, None, codec)
  {
    h := new LocalStorageHook(UserDataKey, None, codec, hasWindow, store);
  }

  /** `useRememberMe`: the flag under `remember_me`, `false` by default. */
  method UseRememberMe(codec: Codec<bool>, hasWindow: bool, store: Storage)
    returns (h: LocalStorageHook<bool>)
    ensures fresh(h) && h.key == RememberMeKey && !h.initialValue
    ensures h.codec == codec && h.hasWindow == hasWindow && h.store == store
    ensures h.storedValue == ReadInitial(hasWindow, store.accessible, store.items, RememberMeKey, false, codec)
  {
    h := new LocalStorageHook(RememberMeKey, false, codec, hasWindow, store);
  }

  /** The three hooks use three different keys, so a write through one never reaches another's read. */
  lemma WrapperKeysDistinct()
    ensures AuthTokenKey != UserDataKey && UserDataKey != RememberMeKey && AuthTokenKey != RememberMeKey
  {
    assert AuthTokenKey[0] != UserDataKey[0] && UserDataKey[0] != RememberMeKey[0] && AuthTokenKey[0] != RememberMeKey[0];
  }
}
