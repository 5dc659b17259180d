/** The process-wide selection the tool works against (app-context.go):
    the connection string, the chosen topic and the chosen subscription. */
module AppState {

  /** A snapshot of the three fields, used to state what a mutator does. */
  datatype Snapshot = Snapshot(connectionString: string, topic: string, subscription: string)

  /** What `Clear` leaves behind: connection string and topic emptied,
      the subscription kept. */
  function Cleared(s: Snapshot): (r: Snapshot)
    ensures r.connectionString == "" && r.topic == ""
    ensures r.subscription == s.subscription
  {
    s.(connectionString := "", topic := "")
  }

  /** Clearing twice is the same as clearing once. */
  lemma ClearedIdempotent(s: Snapshot)
    ensures Cleared(Cleared(s)) == Cleared(s)
  {
  }

  /** Clearing loses exactly the connection string and the topic: two
      snapshots clear to the same state iff their subscriptions agree. */
  lemma ClearedForgetsOnlyConnectionAndTopic(s: Snapshot, t: Snapshot)
    ensures Cleared(s) == Cleared(t) <==> s.subscription == t.subscription
  {
  }

  class AppContext {
    var connectionString: string
    var topic: string
    var subscription: string

    /** The context's three fields as a value. */
    function Current(): (s: Snapshot)
      reads this
    {
      Snapshot(connectionString, topic, subscription)
    }

    /** Go's zero value `&AppContext{}`: all three fields empty. */
    constructor ()
      ensures Current() == Snapshot("", "", "")
    {
      connectionString, topic, subscription := "", "", "";
    }

    method SetConnectionString(connStr: string)
      modifies this
      ensures connectionString == connStr
      ensures topic == old(topic) && subscription == old(subscription)
    {
      connectionString := connStr;
    }

    method SetTopic(t: string)
      modifies this
      ensures topic == t
      ensures connectionString == old(connectionString) && subscription == old(subscription)
    {
      topic := t;
    }

    /** Forgets the connection string and the topic; the subscription is
        deliberately left as it was. */
    method Clear()
      modifies this
      ensures Current() == Cleared(old(Current()))
    {
      connectionString := "";
      topic := "";
    }
  }
}
