/** The commands of commands.go, run against the broker oracles of
    `Topics`, the prompt answers of `Prompts` and the process-wide
    `AppContext`. Printing is left out; what would be printed is returned. */
module Commands {
  import opened Wrappers
  import opened Codec
  import opened AppState
  import opened FileStore
  import opened Topics

  /** A (topic, subscription) pair. */
  datatype Pair = Pair(topic: string, subscription: string)

  // ---------------------------------------------------------------------
  // Bulk dead-letter operator (resend / clear)
  // ---------------------------------------------------------------------

  /** A pair the bulk operator acts on: its statistics were fetched and its
      dead-letter queue is not empty. */
  predicate Eligible(dir: Directory, p: Pair) {
    dir.getStats(p.topic, p.subscription).Ok? &&
    dir.getStats(p.topic, p.subscription).value.deadLetterMessageCount != 0
  }

  /** The pairs of one topic handed to the operation, in subscription order. */
  function EligibleInTopic(dir: Directory, topic: string, subs: seq<string>): (ps: seq<Pair>)
    ensures |ps| <= |subs|
  {
    if subs == [] then []
    else
      var p := Pair(topic, subs[|subs| - 1]);
      EligibleInTopic(dir, topic, subs[..|subs| - 1]) + (if Eligible(dir, p) then [p] else [])
  }

  /** The pairs handed to the operation over all topics, in order; a topic
      whose subscriptions cannot be listed contributes none. */
  function EligiblePairs(dir: Directory, topics: seq<string>): (ps: seq<Pair>)
  {
    if topics == [] then []
    else
      var t := topics[|topics| - 1];
      EligiblePairs(dir, topics[..|topics| - 1]) +
        (if dir.listSubscriptions(t).Ok? then EligibleInTopic(dir, t, dir.listSubscriptions(t).value) else [])
  }

  /** The sum of the counts returned by the operation where it succeeded. */
  function SuccessTotal(op: DlqOperation, ps: seq<Pair>): (total: int)
  {
    if ps == [] then 0
    else
      var p := ps[|ps| - 1];
      SuccessTotal(op, ps[..|ps| - 1]) + (if op(p.topic, p.subscription).Ok? then op(p.topic, p.subscription).value else 0)
  }

  lemma EligibleInTopicSnoc(dir: Directory, topic: string, subs: seq<string>, s: string)
    ensures EligibleInTopic(dir, topic, subs + [s]) ==
            EligibleInTopic(dir, topic, subs) + (if Eligible(dir, Pair(topic, s)) then [Pair(topic, s)] else [])
  {
    assert (subs + [s])[..|subs|] == subs;
  }

  lemma EligiblePairsSnoc(dir: Directory, topics: seq<string>, t: string)
    ensures EligiblePairs(dir, topics + [t]) ==
            EligiblePairs(dir, topics) +
              (if dir.listSubscriptions(t).Ok? then EligibleInTopic(dir, t, dir.listSubscriptions(t).value) else [])
  {
    assert (topics + [t])[..|topics|] == topics;
  }

  lemma SuccessTotalSnoc(op: DlqOperation, ps: seq<Pair>, p: Pair)
    ensures SuccessTotal(op, ps + [p]) ==
            SuccessTotal(op, ps) + (if op(p.topic, p.subscription).Ok? then op(p.topic, p.subscription).value else 0)
  {
    assert (ps + [p])[..|ps|] == ps;
  }

  lemma {:induction false} EligibleInTopicMembership(dir: Directory, topic: string, subs: seq<string>, p: Pair)
    ensures p in EligibleInTopic(dir, topic, subs) <==> p.topic == topic && p.subscription in subs && Eligible(dir, p)
  {
    if subs != [] {
      var init := subs[..|subs| - 1];
      EligibleInTopicMembership(dir, topic, init, p);
      assert subs == init + [subs[|subs| - 1]];
    }
  }

  /** Skip-on-zero and continue-on-failure: a pair is handed to the
      operation iff its topic was listed, its topic's subscriptions could
      be listed and include it, its statistics were fetched and its
      dead-letter count is non-zero, whatever happened to other pairs. */
  lemma {:induction false} EligiblePairsMembership(dir: Directory, topics: seq<string>, p: Pair)
    ensures p in EligiblePairs(dir, topics) <==>
            && p.topic in topics
            && dir.listSubscriptions(p.topic).Ok?
            && p.subscription in dir.listSubscriptions(p.topic).value
            && Eligible(dir, p)
  {
    if topics != [] {
      var init := topics[..|topics| - 1];
      var t := topics[|topics| - 1];
      EligiblePairsMembership(dir, init, p);
      assert topics == init + [t];
      if dir.listSubscriptions(t).Ok? {
        EligibleInTopicMembership(dir, t, dir.listSubscriptions(t).value, p);
      }
    }
  }

  /** A pair whose dead-letter queue is empty is never handed to the
      operation, so it adds nothing to the total. */
  lemma ZeroDeadLettersNeverOperated(dir: Directory, topics: seq<string>, p: Pair)
    requires dir.getStats(p.topic, p.subscription).Ok?
    requires dir.getStats(p.topic, p.subscription).value.deadLetterMessageCount == 0
    ensures p !in EligiblePairs(dir, topics)
  {
    EligiblePairsMembership(dir, topics, p);
  }

  lemma {:induction false} SuccessTotalAppend(op: DlqOperation, a: seq<Pair>, b: seq<Pair>)
    ensures SuccessTotal(op, a + b) == SuccessTotal(op, a) + SuccessTotal(op, b)
    decreases |b|
  {
    if b == [] {
      assert a + b == a;
    } else {
      var b' := b[..|b| - 1];
      assert (a + b)[..|a + b| - 1] == a + b';
      SuccessTotalAppend(op, a, b');
    }
  }

  /** A pair whose operation failed contributes nothing to the total. */
  lemma FailedPairAddsNothing(op: DlqOperation, before: seq<Pair>, p: Pair, after: seq<Pair>)
    requires op(p.topic, p.subscription).Err?
    ensures SuccessTotal(op, before + [p] + after) == SuccessTotal(op, before + after)
  {
    SuccessTotalAppend(op, before + [p], after);
    SuccessTotalAppend(op, before, [p]);
    SuccessTotalAppend(op, before, after);
    assert SuccessTotal(op, [p]) == SuccessTotal(op, []) + 0 by {
      assert [p][..0] == [];
    }
  }

  /** Partial-failure isolation: one subscription whose resend fails does
      not keep the next one from being processed, and the total is the
      other pair's count alone. */
  lemma PartialFailureIsolation(dir: Directory, op: DlqOperation, t: string, s1: string, s2: string, n: int)
    requires dir.listSubscriptions(t) == Ok([s1, s2])
    requires Eligible(dir, Pair(t, s1)) && Eligible(dir, Pair(t, s2))
    requires op(t, s1).Err? && op(t, s2) == Ok(n)
    ensures EligiblePairs(dir, [t]) == [Pair(t, s1), Pair(t, s2)]
    ensures SuccessTotal(op, EligiblePairs(dir, [t])) == n
  {
    EligibleInTopicSnoc(dir, t, [], s1);
    EligibleInTopicSnoc(dir, t, [s1], s2);
    EligiblePairsSnoc(dir, [], t);
    assert [] + [t] == [t] && [] + [s1] == [s1] && [s1] + [s2] == [s1, s2];
    var p1, p2 := Pair(t, s1), Pair(t, s2);
    SuccessTotalSnoc(op, [], p1);
    SuccessTotalSnoc(op, [p1], p2);
    assert [] + [p1] == [p1] && [p1] + [p2] == [p1, p2];
  }

  /** The bulk loop shared by resend and clear: every (topic, subscription)
      pair is visited in order; failures to list a topic's subscriptions,
      fetch a pair's statistics or operate on a pair are skipped, empty
      dead-letter queues are skipped, and the counts of the successful
      operations are summed. Only failing to list the topics is an error.
      `operated` is the sequence of pairs handed to `op`. */
  method OperateOnAllDLQ(dir: Directory, op: DlqOperation)
    returns (err: Option<string>, total: int, operated: seq<Pair>)
    ensures dir.listTopics.Err? ==>
              err == Some("could not fetch topics: " + dir.listTopics.error) && total == 0 && operated == []
    ensures dir.listTopics.Ok? ==> err.None? && operated == EligiblePairs(dir, dir.listTopics.value)
    ensures total == SuccessTotal(op, operated)
  {
    var allTopics := dir.listTopics;
    if allTopics.Err? {
      return Some("could not fetch topics: " + allTopics.error), 0, [];
    }
    var topics := allTopics.value;
    err, total, operated := None, 0, [];

    for i := 0 to |topics|
      invariant operated == EligiblePairs(dir, topics[..i])
      invariant total == SuccessTotal(op, operated)
    {
      assert topics[..i + 1] == topics[..i] + [topics[i]];
      EligiblePairsSnoc(dir, topics[..i], topics[i]);
      var topic := topics[i];
      var subscriptions := dir.listSubscriptions(topic);
      if subscriptions.Err? {
        continue;
      }
      var topicTotal, topicOperated := OperateOnTopic(dir, op, topic, subscriptions.value);
      SuccessTotalAppend(op, operated, topicOperated);
      operated := operated + topicOperated;
      total := total + topicTotal;
    }
    assert topics[..|topics|] == topics;
  }

  /** The inner loop over one topic's subscriptions. */
  method OperateOnTopic(dir: Directory, op: DlqOperation, topic: string, subs: seq<string>)
    returns (total: int, operated: seq<Pair>)
    ensures operated == EligibleInTopic(dir, topic, subs)
    ensures total == SuccessTotal(op, operated)
  {
    total, operated := 0, [];
    for j := 0 to |subs|
      invariant operated == EligibleInTopic(dir, topic, subs[..j])
      invariant total == SuccessTotal(op, operated)
    {
      assert subs[..j + 1] == subs[..j] + [subs[j]];
      EligibleInTopicSnoc(dir, topic, subs[..j], subs[j]);
      var subscription := subs[j];
      var stats := dir.getStats(topic, subscription);
      if stats.Err? {
        continue;
      }
      if stats.value.deadLetterMessageCount == 0 {
        continue;
      }
      var count := op(topic, subscription);
      SuccessTotalSnoc(op, operated, Pair(topic, subscription));
      operated := operated + [Pair(topic, subscription)];
      if count.Err? {
        continue;
      }
      total := total + count.value;
    }
    assert subs[..|subs|] == subs;
  }

  /** Moves every dead-lettered message of every subscription back to its
      main queue; see `OperateOnAllDLQ`. */
  method ResendAllDLQMessages(dir: Directory, broker: Broker)
    returns (err: Option<string>, totalResent: int, resent: seq<Pair>)
    ensures dir.listTopics.Err? ==>
              err == Some("could not fetch topics: " + dir.listTopics.error) && totalResent == 0 && resent == []
    ensures dir.listTopics.Ok? ==> err.None? && resent == EligiblePairs(dir, dir.listTopics.value)
    ensures totalResent == SuccessTotal(broker.resendDLQMessages, resent)
  {
    err, totalResent, resent := OperateOnAllDLQ(dir, broker.resendDLQMessages);
  }

  /** Deletes every dead-lettered message of every subscription; the same
      loop as resend with the clear operation. */
  method ClearAllDLQMessages(dir: Directory, broker: Broker)
    returns (err: Option<string>, totalCleared: int, cleared: seq<Pair>)
    ensures dir.listTopics.Err? ==>
              err == Some("could not fetch topics: " + dir.listTopics.error) && totalCleared == 0 && cleared == []
    ensures dir.listTopics.Ok? ==> err.None? && cleared == EligiblePairs(dir, dir.listTopics.value)
    ensures totalCleared == SuccessTotal(broker.clearDLQMessages, cleared)
  {
    err, totalCleared, cleared := OperateOnAllDLQ(dir, broker.clearDLQMessages);
  }

  // ---------------------------------------------------------------------
  // Statistics listing
  // ---------------------------------------------------------------------

  /** One row of the statistics table. */
  datatype StatsRow = StatsRow(topic: string, subscription: string, activeMessageCount: int, deadLetterMessageCount: int)

  /** Whether a subscription with these statistics gets a row. */
  predicate Shown(stats: SubscriptionStats, dlqOnly: bool) {
    !dlqOnly || stats.deadLetterMessageCount != 0
  }

  /** The listing of one topic after one more subscription `s`: an
      earlier error stands; a statistics error aborts; otherwise the row is
      added when the subscription is shown. */
  function RowStep(dir: Directory, topic: string, prev: Result<seq<StatsRow>>, s: string, dlqOnly: bool): (rows: Result<seq<StatsRow>>)
  {
    if prev.Err? then prev
    else match dir.getStats(topic, s)
      case Err(e) => Err("could not fetch subscription stat: " + e)
      case Ok(st) =>
        if Shown(st, dlqOnly)
        then Ok(prev.value + [StatsRow(topic, s, st.activeMessageCount, st.deadLetterMessageCount)])
        else prev
  }

  /** The rows of one topic's subscriptions, or the first statistics
      fetch error, which aborts the topic. */
  function TopicRows(dir: Directory, topic: string, subs: seq<string>, dlqOnly: bool): (rows: Result<seq<StatsRow>>)
  {
    if subs == [] then Ok([])
    else RowStep(dir, topic, TopicRows(dir, topic, subs[..|subs| - 1], dlqOnly), subs[|subs| - 1], dlqOnly)
  }

  lemma TopicRowsSnoc(dir: Directory, topic: string, subs: seq<string>, s: string, dlqOnly: bool)
    ensures TopicRows(dir, topic, subs + [s], dlqOnly) == RowStep(dir, topic, TopicRows(dir, topic, subs, dlqOnly), s, dlqOnly)
  {
    assert (subs + [s])[..|subs|] == subs;
  }

  /** The listing of one topic fails iff some subscription's statistics
      cannot be fetched. */
  lemma {:induction false} TopicRowsFailsIff(dir: Directory, topic: string, subs: seq<string>, dlqOnly: bool)
    ensures TopicRows(dir, topic, subs, dlqOnly).Err? <==>
            exists i :: 0 <= i < |subs| && dir.getStats(topic, subs[i]).Err?
  {
    if subs != [] {
      var init := subs[..|subs| - 1];
      TopicRowsFailsIff(dir, topic, init, dlqOnly);
      assert subs == init + [subs[|subs| - 1]];
      if exists i :: 0 <= i < |init| && dir.getStats(topic, init[i]).Err? {
        var i :| 0 <= i < |init| && dir.getStats(topic, init[i]).Err?;
        assert subs[i] == init[i];
      }
    }
  }

  /** A successful listing has a row exactly for the subscriptions that are
      shown (every one without `dlqOnly`, those with dead letters with it),
      carrying the fetched statistics. */
  lemma {:induction false} TopicRowsContent(dir: Directory, topic: string, subs: seq<string>, dlqOnly: bool, row: StatsRow)
    requires TopicRows(dir, topic, subs, dlqOnly).Ok?
    ensures row in TopicRows(dir, topic, subs, dlqOnly).value <==>
            && row.topic == topic && row.subscription in subs
            && dir.getStats(topic, row.subscription).Ok?
            && var st := dir.getStats(topic, row.subscription).value;
               Shown(st, dlqOnly) && row.activeMessageCount == st.activeMessageCount
               && row.deadLetterMessageCount == st.deadLetterMessageCount
  {
    if subs != [] {
      var init := subs[..|subs| - 1];
      TopicRowsContent(dir, topic, init, dlqOnly, row);
      assert subs == init + [subs[|subs| - 1]];
    }
  }

  /** Without `dlqOnly`, every subscription gets one row, in order. */
  lemma {:induction false} TopicRowsAllShown(dir: Directory, topic: string, subs: seq<string>)
    requires TopicRows(dir, topic, subs, false).Ok?
    ensures |TopicRows(dir, topic, subs, false).value| == |subs|
    ensures forall i :: 0 <= i < |subs| ==> TopicRows(dir, topic, subs, false).value[i].subscription == subs[i]
  {
    if subs != [] {
      var init := subs[..|subs| - 1];
      TopicRowsAllShown(dir, topic, init);
    }
  }

  /** The rows a topic's listing shows, read from the front: one per
      subscription whose statistics were fetched and are shown, in the
      order of `subs`. */
  function ShownRows(dir: Directory, topic: string, subs: seq<string>, dlqOnly: bool): (rows: seq<StatsRow>)
    ensures |rows| <= |subs|
  {
    if subs == [] then []
    else
      var rest := ShownRows(dir, topic, subs[1..], dlqOnly);
      match dir.getStats(topic, subs[0])
      case Err(_) => rest
      case Ok(st) =>
        if Shown(st, dlqOnly)
        then [StatsRow(topic, subs[0], st.activeMessageCount, st.deadLetterMessageCount)] + rest
        else rest
  }

  lemma {:induction false} ShownRowsAppend(dir: Directory, topic: string, a: seq<string>, b: seq<string>, dlqOnly: bool)
    ensures ShownRows(dir, topic, a + b, dlqOnly) == ShownRows(dir, topic, a, dlqOnly) + ShownRows(dir, topic, b, dlqOnly)
  {
    if a != [] {
      assert (a + b)[0] == a[0] && (a + b)[1..] == a[1..] + b;
      ShownRowsAppend(dir, topic, a[1..], b, dlqOnly);
    } else {
      assert a + b == b;
    }
  }

  /** A successful listing of one topic is exactly the in-order filter of
      its subscriptions, with or without `dlqOnly`. */
  lemma {:induction false} TopicRowsInOrder(dir: Directory, topic: string, subs: seq<string>, dlqOnly: bool)
    requires TopicRows(dir, topic, subs, dlqOnly).Ok?
    ensures TopicRows(dir, topic, subs, dlqOnly).value == ShownRows(dir, topic, subs, dlqOnly)
  {
    if subs != [] {
      var init, last := subs[..|subs| - 1], subs[|subs| - 1];
      TopicRowsInOrder(dir, topic, init, dlqOnly);
      assert subs == init + [last];
      ShownRowsAppend(dir, topic, init, [last], dlqOnly);
      assert [last][1..] == [];
    }
  }

  /** Lists one topic's subscriptions with their statistics; with
      `dlqOnly` the subscriptions without dead letters are left out. Any
      fetch error aborts the listing. */
  method WriteTopicSubscriptionsStats(dir: Directory, topic: string, dlqOnly: bool)
    returns (r: Result<seq<StatsRow>>)
    ensures dir.listSubscriptions(topic).Err? ==>
              r == Err("could not fetch subscriptions: " + dir.listSubscriptions(topic).error)
    ensures dir.listSubscriptions(topic).Ok? ==>
              r == TopicRows(dir, topic, dir.listSubscriptions(topic).value, dlqOnly)
  {
    var allSubscriptions := dir.listSubscriptions(topic);
    if allSubscriptions.Err? {
      return Err("could not fetch subscriptions: " + allSubscriptions.error);
    }
    var subs := allSubscriptions.value;
    var rows: seq<StatsRow> := [];
    for i := 0 to |subs|
      invariant TopicRows(dir, topic, subs[..i], dlqOnly) == Ok(rows)
    {
      assert subs[..i + 1] == subs[..i] + [subs[i]];
      TopicRowsSnoc(dir, topic, subs[..i], subs[i], dlqOnly);
      var subscription := subs[i];
      var subscriptionStats := dir.getStats(topic, subscription);
      if subscriptionStats.Err? {
        r := Err("could not fetch subscription stat: " + subscriptionStats.error);
        TopicRowsAbortIsFinal(dir, topic, subs, i + 1, dlqOnly);
        return;
      }
      if dlqOnly && subscriptionStats.value.deadLetterMessageCount == 0 {
        continue;
      }
      var st := subscriptionStats.value;
      rows := rows + [StatsRow(topic, subscription, st.activeMessageCount, st.deadLetterMessageCount)];
    }
    assert subs[..|subs|] == subs;
    return Ok(rows);
  }

  /** Once a statistics fetch has failed, later subscriptions change nothing. */
  lemma {:induction false} TopicRowsAbortIsFinal(dir: Directory, topic: string, subs: seq<string>, k: nat, dlqOnly: bool)
    requires k <= |subs|
    requires TopicRows(dir, topic, subs[..k], dlqOnly).Err?
    ensures TopicRows(dir, topic, subs, dlqOnly) == TopicRows(dir, topic, subs[..k], dlqOnly)
    decreases |subs| - k
  {
    if k < |subs| {
      var init := subs[..|subs| - 1];
      assert init[..k] == subs[..k];
      TopicRowsAbortIsFinal(dir, topic, init, k, dlqOnly);
    } else {
      assert subs[..k] == subs;
    }
  }

  /** The rows of one topic, or the error that aborts it. */
  function TopicListing(dir: Directory, t: string, dlqOnly: bool): (rows: Result<seq<StatsRow>>)
  {
    match dir.listSubscriptions(t)
    case Err(e) => Err("could not fetch subscriptions: " + e)
    case Ok(subs) => TopicRows(dir, t, subs, dlqOnly)
  }

  /** The listing after one more topic: an earlier error stands, a topic's
      error aborts, otherwise its rows are appended. */
  function TopicStep(dir: Directory, prev: Result<seq<StatsRow>>, t: string, dlqOnly: bool): (rows: Result<seq<StatsRow>>)
  {
    if prev.Err? then prev
    else match TopicListing(dir, t, dlqOnly)
      case Err(e) => Err("could not write topic subscription stats: " + e)
      case Ok(rs) => Ok(prev.value + rs)
  }

  /** The rows of all topics in order, or the first error, which aborts
      the whole listing. */
  function AllRows(dir: Directory, topics: seq<string>, dlqOnly: bool): (rows: Result<seq<StatsRow>>)
  {
    if topics == [] then Ok([])
    else TopicStep(dir, AllRows(dir, topics[..|topics| - 1], dlqOnly), topics[|topics| - 1], dlqOnly)
  }

  lemma AllRowsSnoc(dir: Directory, topics: seq<string>, t: string, dlqOnly: bool)
    ensures AllRows(dir, topics + [t], dlqOnly) == TopicStep(dir, AllRows(dir, topics, dlqOnly), t, dlqOnly)
  {
    assert (topics + [t])[..|topics|] == topics;
  }

  /** Unlike the bulk operator, the listing fails as soon as any listed
      topic's subscriptions or any subscription's statistics cannot be
      fetched. */
  lemma {:induction false} AllRowsFailsIff(dir: Directory, topics: seq<string>, dlqOnly: bool)
    ensures AllRows(dir, topics, dlqOnly).Err? <==>
            exists i :: 0 <= i < |topics| &&
              (dir.listSubscriptions(topics[i]).Err? ||
               exists j :: 0 <= j < |dir.listSubscriptions(topics[i]).value| &&
                 dir.getStats(topics[i], dir.listSubscriptions(topics[i]).value[j]).Err?)
  {
    if topics != [] {
      var init := topics[..|topics| - 1];
      var t := topics[|topics| - 1];
      AllRowsFailsIff(dir, init, dlqOnly);
      if dir.listSubscriptions(t).Ok? {
        TopicRowsFailsIff(dir, t, dir.listSubscriptions(t).value, dlqOnly);
      }
      assert topics == init + [t];
      if exists i :: 0 <= i < |init| &&
              (dir.listSubscriptions(init[i]).Err? ||
               exists j :: 0 <= j < |dir.listSubscriptions(init[i]).value| &&
                 dir.getStats(init[i], dir.listSubscriptions(init[i]).value[j]).Err?) {
        var i :| 0 <= i < |init| &&
              (dir.listSubscriptions(init[i]).Err? ||
               exists j :: 0 <= j < |dir.listSubscriptions(init[i]).value| &&
                 dir.getStats(init[i], dir.listSubscriptions(init[i]).value[j]).Err?);
        assert topics[i] == init[i];
      }
    }
  }

  /** The rows of every topic, read from the front: each topic's shown
      rows in topic order. */
  function AllShownRows(dir: Directory, topics: seq<string>, dlqOnly: bool): (rows: seq<StatsRow>)
  {
    if topics == [] then []
    else
      var own := match dir.listSubscriptions(topics[0])
                 case Err(_) => []
                 case Ok(subs) => ShownRows(dir, topics[0], subs, dlqOnly);
      own + AllShownRows(dir, topics[1..], dlqOnly)
  }

  lemma {:induction false} AllShownRowsAppend(dir: Directory, a: seq<string>, b: seq<string>, dlqOnly: bool)
    ensures AllShownRows(dir, a + b, dlqOnly) == AllShownRows(dir, a, dlqOnly) + AllShownRows(dir, b, dlqOnly)
  {
    if a != [] {
      assert (a + b)[0] == a[0] && (a + b)[1..] == a[1..] + b;
      AllShownRowsAppend(dir, a[1..], b, dlqOnly);
    } else {
      assert a + b == b;
    }
  }

  /** A successful full listing is each topic's in-order filter of its
      subscriptions, concatenated in topic order. */
  lemma {:induction false} AllRowsInOrder(dir: Directory, topics: seq<string>, dlqOnly: bool)
    requires AllRows(dir, topics, dlqOnly).Ok?
    ensures AllRows(dir, topics, dlqOnly).value == AllShownRows(dir, topics, dlqOnly)
  {
    if topics != [] {
      var init, last := topics[..|topics| - 1], topics[|topics| - 1];
      AllRowsInOrder(dir, init, dlqOnly);
      assert topics == init + [last];
      AllShownRowsAppend(dir, init, [last], dlqOnly);
      assert [last][1..] == [];
      var subs := dir.listSubscriptions(last).value;
      TopicRowsInOrder(dir, last, subs, dlqOnly);
    }
  }

  /** The listing over every topic, shared by the two table commands;
      `flush` is the outcome of flushing the table writer. */
  method ListStats(dir: Directory, dlqOnly: bool, flush: Outcome) returns (r: Result<seq<StatsRow>>)
    ensures dir.listTopics.Err? ==> r == Err("could not fetch topics: " + dir.listTopics.error)
    ensures dir.listTopics.Ok? && AllRows(dir, dir.listTopics.value, dlqOnly).Err? ==>
              r == AllRows(dir, dir.listTopics.value, dlqOnly)
    ensures dir.listTopics.Ok? && AllRows(dir, dir.listTopics.value, dlqOnly).Ok? ==>
              r == if flush.Fail? then Err("could not flush writer: " + flush.error)
                   else AllRows(dir, dir.listTopics.value, dlqOnly)
  {
    var allTopics := dir.listTopics;
    if allTopics.Err? {
      return Err("could not fetch topics: " + allTopics.error);
    }
    var topics := allTopics.value;
    var rows: seq<StatsRow> := [];
    for i := 0 to |topics|
      invariant AllRows(dir, topics[..i], dlqOnly) == Ok(rows)
    {
      assert topics[..i + 1] == topics[..i] + [topics[i]];
      AllRowsSnoc(dir, topics[..i], topics[i], dlqOnly);
      var written := WriteTopicSubscriptionsStats(dir, topics[i], dlqOnly);
      if written.Err? {
        r := Err("could not write topic subscription stats: " + written.error);
        AllRowsAbortIsFinal(dir, topics, i + 1, dlqOnly);
        return;
      }
      rows := rows + written.value;
    }
    assert topics[..|topics|] == topics;
    if flush.Fail? {
      return Err("could not flush writer: " + flush.error);
    }
    return Ok(rows);
  }

  lemma {:induction false} AllRowsAbortIsFinal(dir: Directory, topics: seq<string>, k: nat, dlqOnly: bool)
    requires k <= |topics|
    requires AllRows(dir, topics[..k], dlqOnly).Err?
    ensures AllRows(dir, topics, dlqOnly) == AllRows(dir, topics[..k], dlqOnly)
    decreases |topics| - k
  {
    if k < |topics| {
      var init := topics[..|topics| - 1];
      assert init[..k] == topics[..k];
      AllRowsAbortIsFinal(dir, init, k, dlqOnly);
    } else {
      assert topics[..k] == topics;
    }
  }

  /** "Topic stats": every subscription of every topic. */
  method ListTopicStatByTopics(dir: Directory, flush: Outcome) returns (r: Result<seq<StatsRow>>)
    ensures dir.listTopics.Err? ==> r == Err("could not fetch topics: " + dir.listTopics.error)
    ensures dir.listTopics.Ok? && AllRows(dir, dir.listTopics.value, false).Err? ==>
              r == AllRows(dir, dir.listTopics.value, false)
    ensures dir.listTopics.Ok? && AllRows(dir, dir.listTopics.value, false).Ok? ==>
              r == if flush.Fail? then Err("could not flush writer: " + flush.error)
                   else AllRows(dir, dir.listTopics.value, false)
  {
    r := ListStats(dir, false, flush);
  }

  /** The dead-letter table: only subscriptions with dead letters. */
  method ListDLQStats(dir: Directory, flush: Outcome) returns (r: Result<seq<StatsRow>>)
    ensures dir.listTopics.Err? ==> r == Err("could not fetch topics: " + dir.listTopics.error)
    ensures dir.listTopics.Ok? && AllRows(dir, dir.listTopics.value, true).Err? ==>
              r == AllRows(dir, dir.listTopics.value, true)
    ensures dir.listTopics.Ok? && AllRows(dir, dir.listTopics.value, true).Ok? ==>
              r == if flush.Fail? then Err("could not flush writer: " + flush.error)
                   else AllRows(dir, dir.listTopics.value, true)
  {
    r := ListStats(dir, true, flush);
  }

  // ---------------------------------------------------------------------
  // Selecting topic and subscription, the connection string, draining
  // ---------------------------------------------------------------------

  /** The operator's answers to the prompts: the connection string, the
      choice among listed topics or subscriptions, and the file name
      entered given the proposed default. */
  datatype Prompts = Prompts(
    connectionString: Result<string>,
    selectTopic: seq<string> -> Result<string>,
    selectSubscription: seq<string> -> Result<string>,
    fileName: string -> Result<string>)

  /** The topic `SelectTopic` settles on, or its error. */
  function TopicSelection(dir: Directory, prompts: Prompts): (r: Result<string>)
  {
    match dir.listTopics
    case Err(e) => Err("could not fetch topics: " + e)
    case Ok(ts) =>
      match prompts.selectTopic(ts)
      case Err(e) => Err("could not select topic: " + e)
      case Ok(t) => Ok(t)
  }

  /** The subscription `SelectSubscription` settles on for `topic`, or its error. */
  function SubscriptionSelection(dir: Directory, prompts: Prompts, topic: string): (r: Result<string>)
  {
    match dir.listSubscriptions(topic)
    case Err(e) => Err("could not fetch subscriptions: " + e)
    case Ok(ss) =>
      match prompts.selectSubscription(ss)
      case Err(e) => Err("could not select subscription: " + e)
      case Ok(s) => Ok(s)
  }

  method SelectTopic(ctx: AppContext, dir: Directory, prompts: Prompts) returns (err: Option<string>)
    modifies ctx
    ensures TopicSelection(dir, prompts).Err? ==>
              err == Some(TopicSelection(dir, prompts).error) && ctx.Current() == old(ctx.Current())
    ensures TopicSelection(dir, prompts).Ok? ==>
              err.None? && ctx.Current() == old(ctx.Current()).(topic := TopicSelection(dir, prompts).value)
  {
    var allTopics := dir.listTopics;
    if allTopics.Err? {
      return Some("could not fetch topics: " + allTopics.error);
    }
    var selectedTopic := prompts.selectTopic(allTopics.value);
    if selectedTopic.Err? {
      return Some("could not select topic: " + selectedTopic.error);
    }
    ctx.topic := selectedTopic.value;
    return None;
  }

  method SelectSubscription(ctx: AppContext, dir: Directory, prompts: Prompts) returns (err: Option<string>)
    modifies ctx
    ensures SubscriptionSelection(dir, prompts, old(ctx.topic)).Err? ==>
              err == Some(SubscriptionSelection(dir, prompts, old(ctx.topic)).error) &&
              ctx.Current() == old(ctx.Current())
    ensures SubscriptionSelection(dir, prompts, old(ctx.topic)).Ok? ==>
              err.None? &&
              ctx.Current() == old(ctx.Current()).(subscription := SubscriptionSelection(dir, prompts, old(ctx.topic)).value)
  {
    var allSubscriptions := dir.listSubscriptions(ctx.topic);
    if allSubscriptions.Err? {
      return Some("could not fetch subscriptions: " + allSubscriptions.error);
    }
    var selectedSubscription := prompts.selectSubscription(allSubscriptions.value);
    if selectedSubscription.Err? {
      return Some("could not select subscription: " + selectedSubscription.error);
    }
    ctx.subscription := selectedSubscription.value;
    return None;
  }

  /** Asks for a connection string only when none is set. A failed prompt
      ends the process (`exited`), leaving the context as it was. */
  method GetConnectionString(ctx: AppContext, prompts: Prompts) returns (exited: bool)
    modifies ctx
    ensures old(ctx.connectionString) != "" ==> !exited && ctx.Current() == old(ctx.Current())
    ensures old(ctx.connectionString) == "" && prompts.connectionString.Err? ==>
              exited && ctx.Current() == old(ctx.Current())
    ensures old(ctx.connectionString) == "" && prompts.connectionString.Ok? ==>
              !exited && ctx.Current() == old(ctx.Current()).(connectionString := prompts.connectionString.value)
  {
    if ctx.connectionString != "" {
      return false;
    }
    var connStr := prompts.connectionString;
    if connStr.Err? {
      return true;
    }
    ctx.connectionString := connStr.value;
    return false;
  }

  /** The file name proposed for a drain; `timestamp` is the current time
      formatted as yyyymmdd-hhmmss. */
  function DefaultFileName(topic: string, subscription: string, timestamp: string): (name: string)
    ensures |name| == |topic| + |subscription| + |timestamp| + 21
    ensures name[..|topic| + 1] == topic + "-"
    ensures name[|name| - 19..] == "-dlq-messages.jsonl"
  {
    topic + "-" + subscription + "-" + timestamp + "-dlq-messages.jsonl"
  }

  /** The proposed name is always one the publish command will offer. */
  lemma DefaultFileNameIsListed(topic: string, subscription: string, timestamp: string)
    ensures IsJsonlFile(DirEntry(DefaultFileName(topic, subscription, timestamp), false))
  {
    var name := DefaultFileName(topic, subscription, timestamp);
    assert name[|name| - 6..] == name[|name| - 19..][13..];
  }

  /** Whether the writer succeeds on this stream and file name. */
  predicate WriterSucceeds(messages: seq<ReceivedMessage>, filename: string, env: WriterEnv) {
    && (ParentDir(filename).None? || env.mkdirAll(ParentDir(filename).value).Pass?)
    && env.create(filename).Pass?
    && WriteLines(messages, env).failure.None?
  }

  /** The line the drain command prints at the end. */
  datatype DrainReport = DrainReport(count: int, fileName: string)

  /** Drains a subscription's dead-letter queue to a `.jsonl` file: asks
      for the topic and the subscription only when they are not set,
      proposes a default file name, writes the received messages and
      reports how many were written (0 when the writer failed). Only the
      selection and file-name prompts can make it return an error. */
  method WriteDLQMessagesToFile(ctx: AppContext, dir: Directory, broker: Broker, prompts: Prompts,
                                env: WriterEnv, timestamp: string, receiveMode: ReceiveMode)
    returns (err: Option<string>, askedTopic: bool, askedSubscription: bool, report: Option<DrainReport>)
    modifies ctx
    ensures askedTopic <==> old(ctx.topic) == ""
    ensures ctx.connectionString == old(ctx.connectionString)
    ensures askedTopic && TopicSelection(dir, prompts).Err? ==>
              err == Some("could not select topic: " + TopicSelection(dir, prompts).error) &&
              !askedSubscription && report.None? && ctx.Current() == old(ctx.Current())
    ensures !askedTopic ==> ctx.topic == old(ctx.topic)
    ensures askedTopic && TopicSelection(dir, prompts).Ok? ==> ctx.topic == TopicSelection(dir, prompts).value
    ensures (!askedTopic || TopicSelection(dir, prompts).Ok?) ==>
              (askedSubscription <==> old(ctx.subscription) == "")
    ensures !askedSubscription ==> ctx.subscription == old(ctx.subscription)
    ensures askedSubscription && SubscriptionSelection(dir, prompts, ctx.topic).Err? ==>
              err == Some("could not select subscription: " + SubscriptionSelection(dir, prompts, ctx.topic).error) &&
              report.None? && ctx.Current() == old(ctx.Current()).(topic := ctx.topic)
    ensures askedSubscription && SubscriptionSelection(dir, prompts, ctx.topic).Ok? ==>
              ctx.subscription == SubscriptionSelection(dir, prompts, ctx.topic).value
    ensures err.None? ==>
              var fileName := prompts.fileName(DefaultFileName(ctx.topic, ctx.subscription, timestamp));
              var fetched := broker.fetchDLQMessages(ctx.topic, ctx.subscription, receiveMode);
              fileName.Ok? &&
              report == Some(DrainReport(if WriterSucceeds(fetched.messages, fileName.value, env)
                                         then |fetched.messages| else 0, fileName.value))
    ensures err.Some? ==> report.None?
    ensures (!askedTopic || TopicSelection(dir, prompts).Ok?) &&
            (!askedSubscription || SubscriptionSelection(dir, prompts, ctx.topic).Ok?) ==>
              (err.None? <==> prompts.fileName(DefaultFileName(ctx.topic, ctx.subscription, timestamp)).Ok?)
    ensures (!askedTopic || TopicSelection(dir, prompts).Ok?) &&
            (!askedSubscription || SubscriptionSelection(dir, prompts, ctx.topic).Ok?) &&
            prompts.fileName(DefaultFileName(ctx.topic, ctx.subscription, timestamp)).Err? ==>
              err == Some("could not get file name: " +
                          prompts.fileName(DefaultFileName(ctx.topic, ctx.subscription, timestamp)).error)
  {
    askedTopic, askedSubscription, report := false, false, None;
    if ctx.topic == "" {
      askedTopic := true;
      var e := SelectTopic(ctx, dir, prompts);
      if e.Some? {
        return Some("could not select topic: " + e.value), askedTopic, askedSubscription, None;
      }
    }

    if ctx.subscription == "" {
      askedSubscription := true;
      var e := SelectSubscription(ctx, dir, prompts);
      if e.Some? {
        return Some("could not select subscription: " + e.value), askedTopic, askedSubscription, None;
      }
    }

    var defaultFileName := DefaultFileName(ctx.topic, ctx.subscription, timestamp);
    var fileName := prompts.fileName(defaultFileName);
    if fileName.Err? {
      return Some("could not get file name: " + fileName.error), askedTopic, askedSubscription, None;
    }

    var fetched := broker.fetchDLQMessages(ctx.topic, ctx.subscription, receiveMode);
    var totalMessages := 0;
    var total, writeErr, _, _ := WriteMessagesToJsonLinesFile(fetched.messages, fileName.value, env);
    if writeErr.None? {
      totalMessages := total;
    }
    return None, askedTopic, askedSubscription, Some(DrainReport(totalMessages, fileName.value));
  }
}
