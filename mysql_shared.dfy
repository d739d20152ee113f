/**
 * The requires side of the `mysql-shared` interface (src/mysql_shared.py):
 * a cache of the credentials last configured, plus the mapping from raw
 * relation events to the three signals it emits.
 */
module MySqlShared {
  import opened Wrappers

  /** The events of MySqlSharedEvents. */
  datatype Signal = Connected | Available | Departed

  /** The raw relation events the object observes. */
  datatype RelationEvent = RelationJoined | RelationChanged | RelationDeparted | RelationBroken

  /** The signal each raw event is turned into (departed and broken share a handler). */
  function SignalFor(e: RelationEvent): Signal
  {
    match e
    case RelationJoined => Connected
    case RelationChanged => Available
    case RelationDeparted => Departed
    case RelationBroken => Departed
  }

  /** Two raw events give the same signal exactly when they are equal or both tear the relation down. */
  lemma SignalForCollapsesTeardown(a: RelationEvent, b: RelationEvent)
    ensures SignalFor(a) == SignalFor(b) <==> a == b || ({a, b} <= {RelationDeparted, RelationBroken})
  {
  }

  class MySqlShared {
    const relationName: string

    // StoredState
    var database: Option<string>
    var username: Option<string>
    var hostname: Option<string>
    var password: Option<string>

    /** The signals emitted so far, oldest first. */
    ghost var emitted: seq<Signal>

    /** No code path ever assigns the stored password. */
    ghost predicate Valid()
      reads this
    {
      password == None
    }

    /** `__init__`: all four stored values default to None. */
    constructor (relationName: string)
      ensures Valid() && this.relationName == relationName
      ensures database == None && username == None && hostname == None && password == None
      ensures emitted == []
    {
      this.relationName := relationName;
      database, username, hostname, password := None, None, None, None;
      emitted := [];
    }

    method OnRelationJoined()
      requires Valid()
      modifies this`emitted
      ensures Valid() && emitted == old(emitted) + [Connected]
    {
      emitted := emitted + [Connected];
    }

    method OnRelationChanged()
      requires Valid()
      modifies this`emitted
      ensures Valid() && emitted == old(emitted) + [Available]
    {
      emitted := emitted + [Available];
    }

    /** Observes both relation-departed and relation-broken. */
    method OnRelationDeparted()
      requires Valid()
      modifies this`emitted
      ensures Valid() && emitted == old(emitted) + [Departed]
    {
      emitted := emitted + [Departed];
    }

    /** One raw event, routed as `__init__` registers the observers. */
    method Handle(e: RelationEvent)
      requires Valid()
      modifies this`emitted
      ensures Valid() && emitted == old(emitted) + [SignalFor(e)]
    {
      match e {
        case RelationJoined => OnRelationJoined();
        case RelationChanged => OnRelationChanged();
        case RelationDeparted => OnRelationDeparted();
        case RelationBroken => OnRelationDeparted();
      }
    }

    /** `configure`: stores the three values; `prefix` is accepted and ignored. */
    method Configure(database: Option<string>, username: Option<string>,
                     hostname: Option<string>, prefix: Option<string>)
      requires Valid()
      modifies this`database, this`username, this`hostname
      ensures Valid()
      ensures this.database == database && this.username == username && this.hostname == hostname
    {
      this.database := database;
      this.username := username;
      this.hostname := hostname;
    }

    /** `database`, `username`, `hostname`: the stored value; `prefix` is ignored. */
    function Database(prefix: Option<string>): (r: Option<string>)
      reads this
    {
      database
    }

    function Username(prefix: Option<string>): (r: Option<string>)
      reads this
    {
      username
    }

    function Hostname(prefix: Option<string>): (r: Option<string>)
      reads this
    {
      hostname
    }

    /** The stored password is never written, so this is always None. */
    function Password(prefix: Option<string>): (r: Option<string>)
      requires Valid()
      reads this
      ensures r == None
    {
      password
    }
  }

  /**
   * A cache read back after `configure` and any relation events: the values
   * given to `configure`, and no password.
   */
  method ReadBackAfterEvents(database: Option<string>, username: Option<string>, hostname: Option<string>,
                             prefix: Option<string>, events: seq<RelationEvent>)
    returns (d: Option<string>, u: Option<string>, h: Option<string>, p: Option<string>)
    ensures d == database && u == username && h == hostname && p == None
  {
    var shared := new MySqlShared("shared-db");
    shared.Configure(database, username, hostname, prefix);
    var k := 0;
    while k < |events|
      invariant 0 <= k <= |events|
      invariant shared.Valid()
      invariant shared.database == database && shared.username == username && shared.hostname == hostname
    {
      shared.Handle(events[k]);
      k := k + 1;
    }
    d, u, h, p := shared.Database(prefix), shared.Username(prefix), shared.Hostname(prefix), shared.Password(prefix);
  }
}
