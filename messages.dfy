/** The shape of a Slack message as the analysis reads it, after the
    sentiment analyzer has attached its result, and the local-time facts
    derived from a message timestamp. */
module Messages {
  import opened Wrappers

  /** `datetime.hour`. */
  type Hour = h: int | 0 <= h < 24

  /** `datetime.weekday()` / `strftime('%A')`. */
  datatype Weekday = Monday | Tuesday | Wednesday | Thursday | Friday | Saturday | Sunday

  /** What `extract_timestamp_info` derives from a timestamp: the local
      calendar date (as a day number, ordered like its 'YYYY-MM-DD' text),
      the hour and the day of the week. */
  datatype LocalTime = LocalTime(date: int, hour: Hour, weekday: Weekday)

  /** The conversion of a Slack `ts` string to local time, which depends on
      the machine's time zone; the model takes it as a parameter. */
  type Clock = string -> LocalTime

  /** One entry of a message's `reactions` list; a missing `count` is 0. */
  datatype Reaction = Reaction(name: string, count: nat)

  /** The two keys of `message['sentiment']` the daily aggregation reads. */
  datatype MessageSentiment = MessageSentiment(overall: real, emojiCount: nat)

  /** A message: its `ts`, its `thread_ts` (None when absent), its reactions
      and, when the message was analysed, its sentiment. */
  datatype Message = Message(
    ts: string,
    threadTs: Option<string>,
    reactions: seq<Reaction>,
    sentiment: Option<MessageSentiment>)
  {
    /** `message.get('thread_ts') and message.get('thread_ts') != message.get('ts')`:
        a reply inside a thread rather than the thread's first message. */
    predicate IsThreadReply()
    {
      threadTs.Some? && threadTs.value != "" && threadTs.value != ts
    }
  }
}
