/**
 * The client-side session store (`frontend/lib/auth.ts`): a single
 * `AuthManager` holding the signed-in user and the chosen airport, with a
 * list of listeners that are called after every change.
 *
 * Listeners are callbacks compared by reference in the source; here each is an
 * opaque identity, and what a call of a listener does is recorded as a
 * `Delivery` in the manager's log of notifications.
 */
module Auth {
  import opened Wrappers

  /** The signed-in technician. */
  datatype User = User(id: string, employeeNumber: string, name: string,
                       organization: string, jobTitle: string)

  /** The session: who is signed in and which airport they chose. */
  datatype AuthState = AuthState(user: Option<User>, selectedAirport: Option<string>,
                                 isAuthenticated: bool)

  /** The state of a fresh manager and the state `logout` returns to. */
  const InitialState := AuthState(None, None, false)

  /** The store's invariant: the session is authenticated exactly when a user is held. */
  predicate Consistent(s: AuthState) {
    s.isAuthenticated <==> s.user.Some?
  }

  /** A registered callback, identified as the source identifies it: by reference. */
  datatype Listener = Listener(handle: nat)

  /** One call of a listener, with the state it was passed. */
  datatype Delivery = Delivery(listener: Listener, state: AuthState)

  /** What `subscribe` hands back: the means to remove that listener again. */
  datatype Unsubscriber = Unsubscriber(listener: Listener)

  /** Number of occurrences of `x` in `s`. */
  function Count<T(==)>(s: seq<T>, x: T): nat {
    if s == [] then 0 else (if s[0] == x then 1 else 0) + Count(s[1..], x)
  }

  /** `listeners.filter((l) => l !== listener)`. */
  function Without(ls: seq<Listener>, l: Listener): seq<Listener> {
    if ls == [] then []
    else if ls[0] == l then Without(ls[1..], l)
    else [ls[0]] + Without(ls[1..], l)
  }

  /** The calls one `notify` makes: each registration in turn, all with state `s`. */
  function Broadcast(ls: seq<Listener>, s: AuthState): seq<Delivery> {
    if ls == [] then [] else [Delivery(ls[0], s)] + Broadcast(ls[1..], s)
  }

  /** Unsubscribing removes every registration of that listener and no other. */
  lemma {:induction false} WithoutCount(ls: seq<Listener>, l: Listener, m: Listener)
    ensures Count(Without(ls, l), m) == if m == l then 0 else Count(ls, m)
  {
    if ls != [] {
      WithoutCount(ls[1..], l, m);
    }
  }

  /** The filter works element by element, so it keeps the survivors' order. */
  lemma {:induction false} WithoutAppend(a: seq<Listener>, b: seq<Listener>, l: Listener)
    ensures Without(a + b, l) == Without(a, l) + Without(b, l)
  {
    if a != [] {
      assert (a + b)[1..] == a[1..] + b;
      WithoutAppend(a[1..], b, l);
    } else {
      assert a + b == b;
    }
  }

  /** A list without that listener is left as it is. */
  lemma {:induction false} WithoutAbsent(ls: seq<Listener>, l: Listener)
    requires l !in ls
    ensures Without(ls, l) == ls
  {
    if ls != [] {
      WithoutAbsent(ls[1..], l);
    }
  }

  /** Calling the same unsubscribe twice has the effect of calling it once. */
  lemma {:induction false} WithoutIdempotent(ls: seq<Listener>, l: Listener)
    ensures Without(Without(ls, l), l) == Without(ls, l)
  {
    if ls != [] {
      WithoutIdempotent(ls[1..], l);
    }
  }

  lemma {:induction false} BroadcastAppend(a: seq<Listener>, b: seq<Listener>, s: AuthState)
    ensures Broadcast(a + b, s) == Broadcast(a, s) + Broadcast(b, s)
  {
    if a != [] {
      assert (a + b)[1..] == a[1..] + b;
      BroadcastAppend(a[1..], b, s);
    } else {
      assert a + b == b;
    }
  }

  /** The k-th call goes to the k-th registration and carries the current state. */
  lemma {:induction false} BroadcastInOrder(ls: seq<Listener>, s: AuthState, k: nat)
    requires k < |ls|
    ensures |Broadcast(ls, s)| == |ls|
    ensures Broadcast(ls, s)[k] == Delivery(ls[k], s)
  {
    if k > 0 {
      BroadcastInOrder(ls[1..], s, k - 1);
    } else if |ls| > 1 {
      BroadcastInOrder(ls[1..], s, 0);
    }
  }

  /** Each listener is called once per registration, with the current state. */
  lemma {:induction false} BroadcastCount(ls: seq<Listener>, s: AuthState, l: Listener)
    ensures Count(Broadcast(ls, s), Delivery(l, s)) == Count(ls, l)
  {
    if ls != [] {
      BroadcastCount(ls[1..], s, l);
    }
  }

  /** Nothing is delivered with any state other than the one being broadcast. */
  lemma {:induction false} BroadcastOnlyState(ls: seq<Listener>, s: AuthState, d: Delivery)
    requires d.state != s
    ensures Count(Broadcast(ls, s), d) == 0
  {
    if ls != [] {
      BroadcastOnlyState(ls[1..], s, d);
    }
  }

  /**
   * After `unsubscribe` for `l`, a broadcast no longer reaches `l` and reaches
   * every other listener as often as before.
   */
  lemma UnsubscribedHearsNothing(ls: seq<Listener>, l: Listener, m: Listener, s: AuthState)
    ensures Count(Broadcast(Without(ls, l), s), Delivery(l, s)) == 0
    ensures m != l ==> Count(Broadcast(Without(ls, l), s), Delivery(m, s)) == Count(ls, m)
  {
    BroadcastCount(Without(ls, l), s, l);
    WithoutCount(ls, l, l);
    BroadcastCount(Without(ls, l), s, m);
    WithoutCount(ls, l, m);
  }

  class AuthManager {
    var authState: AuthState
    var listeners: seq<Listener>
    /** Every listener call made so far, oldest first. */
    var deliveries: seq<Delivery>

    ghost predicate Valid()
      reads this
    {
      Consistent(authState)
    }

    constructor ()
      ensures Valid()
      ensures authState == InitialState && listeners == [] && deliveries == []
    {
      authState := InitialState;
      listeners := [];
      deliveries := [];
    }

    /** Registers `l` once more, after every earlier registration. */
    method Subscribe(l: Listener) returns (unsubscribe: Unsubscriber)
      modifies this
      ensures listeners == old(listeners) + [l]
      ensures unsubscribe.listener == l
      ensures authState == old(authState) && deliveries == old(deliveries)
    {
      listeners := listeners + [l];
      unsubscribe := Unsubscriber(l);
    }

    /** The closure `subscribe` returned: removes every registration of its listener. */
    method Unsubscribe(unsubscribe: Unsubscriber)
      modifies this
      ensures listeners == Without(old(listeners), unsubscribe.listener)
      ensures authState == old(authState) && deliveries == old(deliveries)
    {
      listeners := Without(listeners, unsubscribe.listener);
    }

    /** Calls every registered listener in registration order with the current state. */
    method Notify()
      modifies this
      ensures authState == old(authState) && listeners == old(listeners)
      ensures deliveries == old(deliveries) + Broadcast(listeners, authState)
    {
      var i := 0;
      while i < |listeners|
        invariant 0 <= i <= |listeners|
        invariant authState == old(authState) && listeners == old(listeners)
        invariant deliveries == old(deliveries) + Broadcast(listeners[..i], authState)
      {
        BroadcastAppend(listeners[..i], [listeners[i]], authState);
        assert listeners[..i + 1] == listeners[..i] + [listeners[i]];
        deliveries := deliveries + [Delivery(listeners[i], authState)];
        i := i + 1;
      }
      assert listeners[..i] == listeners;
    }

    /** Signs `user` in, keeping any airport chosen before. */
    method Login(user: User)
      requires Valid()
      modifies this
      ensures Valid()
      ensures authState == AuthState(Some(user), old(authState).selectedAirport, true)
      ensures listeners == old(listeners)
      ensures deliveries == old(deliveries) + Broadcast(listeners, authState)
    {
      authState := authState.(user := Some(user), isAuthenticated := true);
      Notify();
    }

    /** Records the chosen airport; it does not check that anyone is signed in. */
    method SelectAirport(airport: string)
      requires Valid()
      modifies this
      ensures Valid()
      ensures authState == old(authState).(selectedAirport := Some(airport))
      ensures listeners == old(listeners)
      ensures deliveries == old(deliveries) + Broadcast(listeners, authState)
    {
      authState := authState.(selectedAirport := Some(airport));
      Notify();
    }

    /** Returns to the initial state, whatever the state before. */
    method Logout()
      requires Valid()
      modifies this
      ensures Valid()
      ensures authState == InitialState
      ensures listeners == old(listeners)
      ensures deliveries == old(deliveries) + Broadcast(listeners, InitialState)
    {
      authState := InitialState;
      Notify();
    }

    /** The state assigned by the most recent change. */
    method GetState() returns (s: AuthState)
      requires Valid()
      ensures s == authState
      ensures s.isAuthenticated <==> s.user.Some?
    {
      s := authState;
    }
  }

  /** The static side of `AuthManager`: the single instance, created on first use. */
  class AuthManagerStatics {
    var instance: AuthManager?

    constructor ()
      ensures instance == null
    {
      instance := null;
    }

    method GetInstance() returns (m: AuthManager)
      modifies this
      ensures instance == m
      ensures old(instance) != null ==> m == old(instance)
      ensures old(instance) == null ==> fresh(m) && m.Valid() && m.authState == InitialState
                                        && m.listeners == [] && m.deliveries == []
    {
      if instance == null {
        instance := new AuthManager();
      }
      m := instance;
    }
  }
}
