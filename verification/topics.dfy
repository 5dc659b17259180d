/** The broker as the commands see it (topics/topics.go and the broker
    operations it is missing): an administrative directory of topics,
    subscriptions and their runtime statistics, and per-subscription
    dead-letter operations. Each is an oracle: a fixed answer per query. */
module Topics {
  import opened Wrappers
  import opened Codec

  /** A subscription's runtime statistics. */
  datatype SubscriptionStats = SubscriptionStats(activeMessageCount: int, deadLetterMessageCount: int)

  /** The administrative directory, for the current connection string. */
  datatype Directory = Directory(
    listTopics: Result<seq<string>>,
    listSubscriptions: string -> Result<seq<string>>,
    getStats: (string, string) -> Result<SubscriptionStats>)

  /** A whole-dead-letter-queue operation on one (topic, subscription):
      the number of messages it affected, or an error. */
  type DlqOperation = (string, string) -> Result<int>

  datatype ReceiveMode = PeekLock | ReceiveAndDelete

  /** What the dead-letter receiver produced: the stream of messages and
      the stream of errors reported beside it. */
  datatype DlqFetch = DlqFetch(messages: seq<ReceivedMessage>, errors: seq<string>)

  /** The data-plane operations the commands call. */
  datatype Broker = Broker(
    resendDLQMessages: DlqOperation,
    clearDLQMessages: DlqOperation,
    fetchDLQMessages: (string, string, ReceiveMode) -> DlqFetch)
}
