/** The notification records built by `send_pushover_notification`. */
module Notification {
  import opened Common

  const Title := "LibrePush"
  const DefaultPriority := 0
  const DefaultSound := "default"

  /** Priority 2 is Pushover's emergency priority: the provider repeats it
      every 30 seconds until acknowledged, for at most an hour. */
  const EmergencyPriority := 2
  const EmergencyRetry := 30
  const EmergencyExpire := 3600

  const LowAlertPriority := 2
  const StartupPriority := 1
  const FallingSound := "falling"

  /** What a message says. The program formats the reading into the text;
      the model keeps the reading itself. */
  datatype Text = ProcessStarted | LowGlucose(level: real) | HighGlucose(level: real)

  datatype Message = Message(
    text: Text,
    title: string,
    priority: int,
    sound: string,
    retry: Option<int>,
    expire: Option<int>)

  /** The message handed to the provider for `text`. Only an emergency
      message carries the retry and expire fields. */
  function BuildMessage(text: Text, priority: int := DefaultPriority, sound: string := DefaultSound): (m: Message)
    ensures m.text == text && m.title == Title && m.priority == priority && m.sound == sound
    ensures m.retry.Some? <==> priority == EmergencyPriority
    ensures m.expire.Some? <==> priority == EmergencyPriority
    ensures priority == EmergencyPriority ==> m.retry == Some(EmergencyRetry) && m.expire == Some(EmergencyExpire)
  {
    if priority == EmergencyPriority then
      Message(text, Title, priority, sound, Some(EmergencyRetry), Some(EmergencyExpire))
    else
      Message(text, Title, priority, sound, None, None)
  }

  /** The message sent for a reading below the low threshold. */
  function LowAlert(level: real): Message {
    BuildMessage(LowGlucose(level), LowAlertPriority, FallingSound)
  }

  /** The message sent for a reading above the high threshold (default
      priority and sound). */
  function HighAlert(level: real): Message {
    BuildMessage(HighGlucose(level))
  }

  /** The one-time notice sent when the process starts. */
  function StartupNotice(): Message {
    BuildMessage(ProcessStarted, StartupPriority, FallingSound)
  }

  /** The message the program sends for each kind of text. */
  function MessageFor(text: Text): Message {
    match text
    case ProcessStarted => StartupNotice()
    case LowGlucose(v) => LowAlert(v)
    case HighGlucose(v) => HighAlert(v)
  }

  /** The two glucose alerts, field by field: a low alert is an emergency
      with sound "falling", a high alert goes out at the default priority
      with the default sound. */
  lemma AlertMessageFields(level: real)
    ensures LowAlert(level) == Message(LowGlucose(level), "LibrePush", 2, "falling", Some(30), Some(3600))
    ensures HighAlert(level) == Message(HighGlucose(level), "LibrePush", 0, "default", None, None)
  {
  }

  /** The startup notice, field by field. */
  lemma StartupNoticeFields()
    ensures StartupNotice() == Message(ProcessStarted, "LibrePush", 1, "falling", None, None)
  {
  }

  /** Of the messages the program sends, exactly the low-glucose alerts are
      emergencies, and only they carry retry and expire. */
  lemma EmergencyIffLowAlert(text: Text)
    ensures MessageFor(text).title == Title && MessageFor(text).text == text
    ensures MessageFor(text).priority == EmergencyPriority <==> text.LowGlucose?
    ensures MessageFor(text).retry.Some? <==> text.LowGlucose?
    ensures MessageFor(text).expire.Some? <==> text.LowGlucose?
  {
  }
}
