/** Shapes shared by the three versions of the Teamspeak notifier: the loosely
    typed message of the chat-protocol client library, the desktop
    notification, the errors that escape the dispatcher, one poll of the
    session, and the dispatcher state of the two package versions. */
module Protocol {

  datatype Option<+T> = None | Some(value: T)

  /** An exception that escapes `notify`: indexing a message on a field it
      lacks, or a loss of connection that the loop does not catch. */
  datatype Error = KeyError(key: string) | Unhandled(loss: Loss)

  /** The value of a lookup that may raise. */
  datatype Result<+T> = Ok(value: T) | Err(error: Error)

  /** The named fields of a message; indexing a missing one raises KeyError. */
  type Fields = map<string, string>

  /** A message of the protocol library. `command` is the protocol command
      word of the message, `origination` the command a response answers (for
      an event, the event itself), and `responses`, when the message has
      that attribute, the entries of a multi-entry response. */
  datatype Message = Message(
    command: string,
    origination: string,
    fields: Fields,
    responses: Option<seq<Fields>>)

  /** The entries a roster listing carries: its `responses`, or else the
      message itself as the only entry. */
  function Entries(m: Message): seq<Fields>
  {
    match m.responses
    case Some(rs) => rs
    case None => [m.fields]
  }

  /** The two ways `get_messages` can fail. */
  datatype Loss = TeamspeakConnectionLost | EOFError

  /** A message together with the title of the focused window at the moment
      it is dispatched (None when the window query finds no title). */
  datatype Observed = Observed(msg: Message, activeWindow: Option<string>)

  /** What one call of `get_messages` gives the main loop. */
  datatype Poll = Batch(messages: seq<Observed>) | Lost(loss: Loss)

  /** A desktop notification: title (summary) and body. */
  datatype Notification = Notification(title: string, body: string)

  // Tags and fields of the protocol
  const TEXT_MESSAGE := "notifytextmessage"
  const TALK_STATUS_CHANGE := "notifytalkstatuschange"
  const CONNECT_STATUS_CHANGE := "notifyconnectstatuschange"
  const CLIENT_LIST := "clientlist"
  const WHOAMI := "whoami"
  const MEMBERSHIP_CHANGES: set<string> :=
    {"notifyclientmoved", "notifyclientleftview", "notifycliententerview"}

  /** The two roster-refresh commands, in the order they are sent. */
  const REFRESH_COMMANDS: seq<string> := [CLIENT_LIST, WHOAMI]

  // Constants every version of the notifier shares

  /** The title of the chat client's window. */
  const TEAMSPEAK_TITLE := "TeamSpeak 3"
  /** The name shown for a speaker the roster does not know. */
  const DEFAULT_NAME := "Somebody"

  const STARTING := Notification("Starting", "TeamspeakNotifier is attempting to find your instance of Teamspeak.")
  const READY := Notification("Ready", "Teamspeak is now listening for messages.")
  const UNAVAILABLE := Notification("Teamspeak is Unavailable", "Teamspeak does not appear to be running.")

  /** The chat window holds the focus. A window query that finds no title
      counts as "not focused". */
  predicate TeamspeakIsActive(activeWindow: Option<string>)
  {
    activeWindow == Some(TEAMSPEAK_TITLE)
  }

  /** The state of the dispatcher of the package versions: the roster (client
      id to nickname), the user's own client id, every notification shown so
      far (the last one is the live one) and every command sent so far. */
  datatype State = State(
    clients: map<string, string>,
    identity: Option<string>,
    shown: seq<Notification>,
    sent: seq<string>)
  {
    /** The state after the live notification is updated to `n` and shown. */
    function Show(n: Notification): State
    {
      this.(shown := shown + [n])
    }

    /** The state after `commands` are sent to the session. */
    function Send(commands: seq<string>): State
    {
      this.(sent := sent + commands)
    }
  }

  /** The state after a dispatch, and the exception it raised, if any. */
  datatype Step = Step(state: State, error: Option<Error>)

  /** The dispatch raised KeyError for `key` before changing anything. */
  function Raise(s: State, key: string): Step
  {
    Step(s, Some(KeyError(key)))
  }
}
