/**
 * `MongoDB.open_connection`: the decision logic of connecting with retries,
 * with the store as an oracle that says how each client construction goes.
 */
module Connection {
  import opened Wrappers
  import opened Python

  /** The budget `open_connection` is called with by every operation. */
  const DefaultAttempts: nat := 10

  /** A client object built by `MongoClient(**config)`. */
  datatype Handle = Handle(id: nat)

  /**
   * What one construction attempt does: `MongoClient(...)` raises, or it returns
   * a handle whose `server_info()` probe then succeeds or raises.
   */
  datatype Attempt = ConstructFails | Constructed(handle: Handle, probeOk: bool)

  /** The outcome of the k-th construction attempt made during one call. */
  type Store = nat -> Attempt

  /**
   * The state after the call: the `_client` field, whether the call returned or
   * raised, the index of the next unused attempt, and how often it slept.
   */
  datatype OpenResult = OpenResult(client: Option<Handle>, outcome: Outcome<Error>, next: nat, backoffs: nat)

  predicate Good(a: Attempt) {
    a.Constructed? && a.probeOk
  }

  /**
   * `open_connection(attempts)` from `_client == client`, reading attempts from
   * `store(next)` on. The handle is stored before it is probed, so after a failed
   * probe the retry finds `_client` set and returns at once.
   */
  function Open(client: Option<Handle>, attempts: nat, store: Store, next: nat): (r: OpenResult)
    ensures next <= r.next
    ensures client.Some? ==> r.client == client
    ensures r.outcome.Pass? ==> r.client.Some?
    ensures r.outcome.Fail? ==> r.outcome.error == ConnectionError
    decreases attempts
  {
    if client.Some? then OpenResult(client, Pass, next, 0)
    else
      var a := store(next);
      var stored := if a.Constructed? then Some(a.handle) else None;
      if Good(a) then OpenResult(stored, Pass, next + 1, 0)
      else if attempts == 0 then OpenResult(stored, Fail(ConnectionError), next + 1, 0)
      else
        var r := Open(stored, attempts - 1, store, next + 1);
        r.(backoffs := r.backoffs + 1)
  }

  /** With a handle present the call changes nothing and consults no attempt. */
  lemma OpenWithClientIsNoop(h: Handle, attempts: nat, store: Store, next: nat)
    ensures Open(Some(h), attempts, store, next) == OpenResult(Some(h), Pass, next, 0)
  {
  }

  /** At most `attempts + 1` constructions, and at most `attempts` sleeps, never more sleeps than constructions. */
  lemma {:induction false} OpenBudget(client: Option<Handle>, attempts: nat, store: Store, next: nat)
    ensures var r := Open(client, attempts, store, next);
      r.next <= next + attempts + 1 && r.backoffs <= attempts && r.backoffs <= r.next - next
    decreases attempts
  {
    if client.None? && !Good(store(next)) && attempts > 0 {
      var a := store(next);
      OpenBudget(if a.Constructed? then Some(a.handle) else None, attempts - 1, store, next + 1);
    }
  }

  /**
   * From no handle the call raises ConnectionError exactly when every construction
   * but the last fails and the last does not both construct and probe; it then has
   * made `attempts + 1` constructions and slept `attempts` times, and `_client`
   * holds the last handle if that one was constructed.
   */
  lemma {:induction false} OpenFailsIff(attempts: nat, store: Store, next: nat)
    ensures var r := Open(None, attempts, store, next);
      r.outcome.Fail? <==>
        (forall j :: next <= j < next + attempts ==> store(j).ConstructFails?) && !Good(store(next + attempts))
    ensures var r := Open(None, attempts, store, next);
      r.outcome.Fail? ==>
        r.next == next + attempts + 1 && r.backoffs == attempts &&
        r.client == (if store(next + attempts).Constructed? then Some(store(next + attempts).handle) else None)
  {
    var a := store(next);
    if attempts > 0 && a.ConstructFails? {
      OpenFailsIff(attempts - 1, store, next + 1);
    }
  }

  /**
   * From no handle, a call that returns holds the handle of the first construction
   * that did not raise; every earlier construction raised, and either that handle's
   * probe succeeded or budget was left, in which case the failed probe is not retried.
   */
  lemma {:induction false} OpenPassKeepsFirstHandle(attempts: nat, store: Store, next: nat)
    requires Open(None, attempts, store, next).outcome.Pass?
    ensures var r := Open(None, attempts, store, next);
      var k := r.next - 1;
      next <= k <= next + attempts && store(k).Constructed? && r.client == Some(store(k).handle) &&
      (forall j :: next <= j < k ==> store(j).ConstructFails?) &&
      (Good(store(k)) || k < next + attempts) &&
      r.backoffs == (if Good(store(k)) then k - next else k - next + 1)
  {
    var a := store(next);
    if !Good(a) && a.ConstructFails? {
      OpenPassKeepsFirstHandle(attempts - 1, store, next + 1);
    }
  }

  /** A failed probe with budget left returns normally, keeping the unprobed handle. */
  lemma ProbeFailureIsNotRetried(h: Handle, attempts: nat, store: Store, next: nat)
    requires store(next) == Constructed(h, false) && attempts > 0
    ensures Open(None, attempts, store, next) == OpenResult(Some(h), Pass, next + 1, 1)
  {
  }

  /** A store that cannot be reached raises after `attempts + 1` constructions and `attempts` sleeps. */
  lemma Unreachable(attempts: nat, store: Store, next: nat)
    requires forall j :: store(j) == ConstructFails
    ensures Open(None, attempts, store, next) == OpenResult(None, Fail(ConnectionError), next + attempts + 1, attempts)
  {
    OpenFailsIff(attempts, store, next);
  }

  /** Once a call has left a handle, a second call on any store consults nothing. */
  lemma OpenTwiceConnectsOnce(client: Option<Handle>, attempts: nat, attempts2: nat,
                                                 store: Store, store2: Store, next: nat, next2: nat)
    requires Open(client, attempts, store, next).outcome.Pass?
    ensures var c := Open(client, attempts, store, next).client;
      Open(c, attempts2, store2, next2) == OpenResult(c, Pass, next2, 0)
  {
  }
}
