/**
 * The administrator session gate of `src/utils/auth.js`: a fixed secret is
 * persisted in the browser's local storage, and the panel counts as logged in
 * exactly while the stored value equals that secret.
 */
module Auth {
  import opened Common

  /** The compiled-in administrator secret. */
  const AdminKey: string := "RITZ_ADMIN_2026_SECRET"

  /** The local-storage key under which the secret is persisted. */
  const StorageKey: string := "ADMIN_KEY"

  /** The contents of local storage: string keys to string values. */
  type Store = map<string, string>

  /** The browser's `localStorage`, the only state the gate touches. */
  class LocalStorage {
    var items: Store

    constructor (initial: Store)
      ensures items == initial
    {
      items := initial;
    }

    /** `getItem`: the stored value, or `null` for a missing key. */
    function GetItem(key: string): (v: Option<string>)
      reads this
      ensures v.Some? <==> key in items
      ensures v.Some? ==> v.value == items[key]
    {
      if key in items then Some(items[key]) else None
    }

    /** `setItem`: stores `value` under `key`, replacing any previous value. */
    method SetItem(key: string, value: string)
      modifies this
      ensures items == old(items)[key := value]
    {
      items := items[key := value];
    }

    /** `removeItem`: deletes `key`; a missing key is not an error. */
    method RemoveItem(key: string)
      modifies this
      ensures items == old(items) - {key}
    {
      items := items - {key};
    }
  }

  /** The gate's meaning on a store: the secret entry is present and exact. */
  predicate Authenticated(items: Store) {
    StorageKey in items && items[StorageKey] == AdminKey
  }

  /** Two stores agree on every key other than the gate's own. */
  ghost predicate SameOutside(a: Store, b: Store) {
    forall k :: k != StorageKey ==> (k in a <==> k in b) && (k in a ==> a[k] == b[k])
  }

  /** What `loginAdmin` returns, and the store it leaves behind. */
  datatype LoginResult = LoginResult(ok: bool, items: Store)

  /** Specification of `loginAdmin(key)` on the store contents. */
  function AfterLogin(items: Store, key: string): (res: LoginResult)
    ensures res.ok <==> key == AdminKey
    ensures res.ok ==> StorageKey in res.items && res.items[StorageKey] == key
    ensures res.ok ==> Authenticated(res.items)
    ensures !res.ok ==> res.items == items
    ensures Authenticated(items) ==> Authenticated(res.items)
    ensures SameOutside(items, res.items)
  {
    if key == AdminKey then LoginResult(true, items[StorageKey := key])
    else LoginResult(false, items)
  }

  /** Specification of `logoutAdmin` on the store contents. */
  function AfterLogout(items: Store): (r: Store)
    ensures StorageKey !in r
    ensures !Authenticated(r)
    ensures SameOutside(items, r)
    ensures r.Keys == items.Keys - {StorageKey}
  {
    items - {StorageKey}
  }

  /** `isAuthenticated()`: a strict equality between the stored value and the secret. */
  function IsAuthenticated(storage: LocalStorage): (b: bool)
    reads storage
    ensures b <==> Authenticated(storage.items)
    ensures StorageKey !in storage.items ==> !b
  {
    storage.GetItem(StorageKey) == Some(AdminKey)
  }

  /** `loginAdmin(key)`: persists the key only when it is the secret. */
  method LoginAdmin(storage: LocalStorage, key: string) returns (ok: bool)
    modifies storage
    ensures LoginResult(ok, storage.items) == AfterLogin(old(storage.items), key)
    ensures ok <==> key == AdminKey
    ensures ok ==> IsAuthenticated(storage)
    ensures !ok ==> storage.items == old(storage.items)
  {
    if key == AdminKey {
      storage.SetItem(StorageKey, key);
      return true;
    }
    return false;
  }

  /** `logoutAdmin()`: removes the entry unconditionally. */
  method LogoutAdmin(storage: LocalStorage)
    modifies storage
    ensures storage.items == AfterLogout(old(storage.items))
    ensures !IsAuthenticated(storage)
  {
    storage.RemoveItem(StorageKey);
  }

  /** `logout` is exported as the very same function as `logoutAdmin`. */
  method Logout(storage: LocalStorage)
    modifies storage
    ensures storage.items == AfterLogout(old(storage.items))
    ensures !IsAuthenticated(storage)
  {
    LogoutAdmin(storage);
  }

  /** Logging out a second time changes nothing. */
  lemma LogoutIdempotent(items: Store)
    ensures AfterLogout(AfterLogout(items)) == AfterLogout(items)
  {
  }

  // ---------------------------------------------------------------------
  // The gate as a two-state machine

  datatype SessionState = LoggedOut | LoggedIn

  /** The calls that can change the store: a login attempt or a logout. */
  datatype SessionEvent = LoginAttempt(key: string) | LogoutCall

  /** The abstract state a store is in. */
  function StateOf(items: Store): SessionState {
    if Authenticated(items) then LoggedIn else LoggedOut
  }

  /**
   * The intended machine: a login with the secret leads to LoggedIn, a
   * wrong key leaves the state as it was, a logout always leads to LoggedOut.
   */
  function Next(s: SessionState, e: SessionEvent): SessionState {
    match e
    case LoginAttempt(k) => if k == AdminKey then LoggedIn else s
    case LogoutCall => LoggedOut
  }

  /** Runs the machine over a sequence of events. */
  function RunMachine(s: SessionState, es: seq<SessionEvent>): SessionState
    decreases |es|
  {
    if es == [] then s else RunMachine(Next(s, es[0]), es[1..])
  }

  /** The effect of one event on the store. */
  function Apply(items: Store, e: SessionEvent): Store {
    match e
    case LoginAttempt(k) => AfterLogin(items, k).items
    case LogoutCall => AfterLogout(items)
  }

  /** The store after a sequence of login attempts and logouts, in order. */
  function Replay(items: Store, es: seq<SessionEvent>): Store
    decreases |es|
  {
    if es == [] then items else Replay(Apply(items, es[0]), es[1..])
  }

  /** One store step moves the abstract state exactly as the machine does. */
  lemma StepRefinesMachine(items: Store, e: SessionEvent)
    ensures StateOf(Apply(items, e)) == Next(StateOf(items), e)
  {
  }

  /** Every sequence of calls moves the store through the two-state machine. */
  lemma {:induction false} ReplayRefinesMachine(items: Store, es: seq<SessionEvent>)
    ensures StateOf(Replay(items, es)) == RunMachine(StateOf(items), es)
    decreases |es|
  {
    if es != [] {
      StepRefinesMachine(items, es[0]);
      ReplayRefinesMachine(Apply(items, es[0]), es[1..]);
    }
  }

  /** No sequence of gate calls touches any storage key but the gate's own. */
  lemma {:induction false} ReplayKeepsOtherKeys(items: Store, es: seq<SessionEvent>)
    ensures SameOutside(items, Replay(items, es))
    decreases |es|
  {
    if es != [] {
      var next := Apply(items, es[0]);
      ReplayKeepsOtherKeys(next, es[1..]);
      var last := Replay(next, es[1..]);
      assert SameOutside(items, next);
      forall k | k != StorageKey
        ensures (k in items <==> k in last) && (k in items ==> items[k] == last[k])
      {
        assert (k in items <==> k in next) && (k in items ==> items[k] == next[k]);
        assert (k in next <==> k in last) && (k in next ==> next[k] == last[k]);
      }
    }
  }

  /**
   * Any number of failed attempts leaves the whole store as it was: no
   * lockout, no logout, no other key touched.
   */
  lemma {:induction false} FailedAttemptsKeepState(items: Store, es: seq<SessionEvent>)
    requires forall i :: 0 <= i < |es| ==> es[i].LoginAttempt? && es[i].key != AdminKey
    ensures Replay(items, es) == items
    decreases |es|
  {
    if es != [] {
      assert Apply(items, es[0]) == items;
      assert forall i :: 0 <= i < |es[1..]| ==> es[1..][i] == es[i + 1];
      FailedAttemptsKeepState(items, es[1..]);
    }
  }
}
