/**
 * The document `on_message` builds from an incoming gewechat message
 * before handing it to the search index.
 */
module Records {
  import opened Wrappers

  /** Raw values above this are read as milliseconds, everything else as seconds. */
  const MillisThreshold: int := 1_000_000_000_000

  /** The platform tag every stored document carries. */
  const Platform: string := "gewechat"

  /** The parts of the framework's message object the handler reads. */
  datatype Event = Event(
    groupId: Option<string>,     // None for a direct message
    senderId: string,
    nickname: Option<string>,
    text: string,
    messageId: Option<string>,
    rawTimestamp: int)

  /** One stored chat document; `timestamp` is in seconds since the epoch. */
  datatype ChatRecord = ChatRecord(
    groupId: Option<string>,
    senderId: string,
    senderName: string,
    message: string,
    timestamp: real,
    messageId: Option<string>,
    platform: string)

  /**
   * The millisecond heuristic: a value strictly above 10^12 is divided by
   * 1000; anything else, 10^12 itself included, is already seconds.
   */
  function NormalizeTimestamp(raw: int): (secs: real)
    ensures raw > MillisThreshold ==> secs * 1000.0 == raw as real
    ensures raw <= MillisThreshold ==> secs == raw as real
  {
    if raw > MillisThreshold then raw as real / 1000.0 else raw as real
  }

  /**
   * `datetime.fromtimestamp` accepts only instants in years 1 to 9999; these
   * are the bounds in seconds, taken in UTC. Outside them it raises.
   */
  const MinDatetimeSeconds: int := -62_135_596_800   // 0001-01-01T00:00:00
  const EndDatetimeSeconds: int := 253_402_300_800   // 10000-01-01T00:00:00, excluded

  predicate Representable(secs: real) {
    MinDatetimeSeconds as real <= secs < EndDatetimeSeconds as real
  }

  /** A time given in seconds and the same time given in milliseconds agree after
      normalisation exactly when the seconds value is past 10^9 (September 2001). */
  lemma UnitsAgree(secs: int)
    requires 0 < secs <= MillisThreshold
    ensures NormalizeTimestamp(secs * 1000) == NormalizeTimestamp(secs) <==> secs > 1_000_000_000
  {
  }

  /** Python's `nickname or user_id`: an absent or empty nickname falls back to the id. */
  function SenderName(e: Event): (name: string)
    ensures (e.nickname.Some? && e.nickname.value != "") ==> name == e.nickname.value
    ensures (e.nickname.None? || e.nickname.value == "") ==> name == e.senderId
  {
    match e.nickname
    case Some(nick) => if nick != "" then nick else e.senderId
    case None => e.senderId
  }

  /** The document built for one message. */
  function BuildRecord(e: Event): (r: ChatRecord)
    ensures r.platform == Platform
    ensures r.groupId == e.groupId && r.senderId == e.senderId
    ensures r.message == e.text && r.messageId == e.messageId
    ensures e.nickname.GetOr("") != "" ==> r.senderName == e.nickname.value
    ensures e.nickname.GetOr("") == "" ==> r.senderName == e.senderId
    ensures e.rawTimestamp > MillisThreshold ==> r.timestamp * 1000.0 == e.rawTimestamp as real
    ensures e.rawTimestamp <= MillisThreshold ==> r.timestamp == e.rawTimestamp as real
  {
    ChatRecord(e.groupId, e.senderId, SenderName(e), e.text,
               NormalizeTimestamp(e.rawTimestamp), e.messageId, Platform)
  }

  /**
   * The handler's outcome for one message: the document, or `None` when
   * `datetime.fromtimestamp` raises on the normalised time (the handler
   * catches the error, logs it and stores nothing).
   */
  function Normalize(e: Event): (r: Option<ChatRecord>)
    ensures r.Some? <==> Representable(NormalizeTimestamp(e.rawTimestamp))
    ensures r.Some? ==> r.value == BuildRecord(e)
  {
    var doc := BuildRecord(e);
    if Representable(doc.timestamp) then Some(doc) else None
  }

  /** The edge of the heuristic, exactly 10^12, is read as seconds: year 33658,
      so the message is not stored. */
  lemma ThresholdValueIsDropped(e: Event)
    requires e.rawTimestamp == MillisThreshold
    ensures Normalize(e).None?
  {
  }

  /**
   * A time up to 10^9 seconds sent in milliseconds is misread as seconds: up
   * to 253402300 seconds (January 1978) it is stored with a timestamp a
   * thousand times too large, and after that it is not stored at all.
   */
  lemma MisreadMilliseconds(e: Event, secs: int)
    requires 0 < secs <= 1_000_000_000 && e.rawTimestamp == secs * 1000
    ensures Normalize(e).Some? <==> secs <= 253_402_300
    ensures Normalize(e).Some? ==> Normalize(e).value.timestamp == 1000.0 * secs as real
  {
  }
}
