/** The original stand-alone script `teamspeak_notify.py`: no roster, no
    identity, no refresh commands. Each message is shown or not on its own,
    and only while the chat window is not focused. It dispatches on the
    message's `command`. */
module NotifyScript {
  import opened Protocol

  /** What `notify` does with one message. */
  datatype Effect = Quiet | Shows(notification: Notification) | Raises(error: Error)

  /** `notify`: a text message shows "<invokername> said" with the message as
      body; a talk-status change to 1 shows "Somebody is talking..." (no
      roster is consulted); anything else shows nothing. A field the message
      lacks raises KeyError. */
  function Notify(m: Message): (e: Effect)
    ensures m.command == TEXT_MESSAGE ==>
      e == if "invokername" !in m.fields then Raises(KeyError("invokername"))
           else if "msg" !in m.fields then Raises(KeyError("msg"))
           else Shows(Notification(m.fields["invokername"] + " said", m.fields["msg"]))
    ensures m.command == TALK_STATUS_CHANGE ==>
      e == if "status" !in m.fields then Raises(KeyError("status"))
           else if m.fields["status"] == "1" then Shows(Notification("Somebody is talking...", ""))
           else Quiet
    ensures m.command !in {TEXT_MESSAGE, TALK_STATUS_CHANGE} ==> e == Quiet
  {
    var f := m.fields;
    if m.command == TEXT_MESSAGE then
      if "invokername" !in f then Raises(KeyError("invokername"))
      else if "msg" !in f then Raises(KeyError("msg"))
      else Shows(Notification(f["invokername"] + " said", f["msg"]))
    else if m.command == TALK_STATUS_CHANGE then
      if "status" !in f then Raises(KeyError("status"))
      else if f["status"] == "1" then Shows(Notification("Somebody is talking...", ""))
      else Quiet
    else Quiet
  }

  /** The focus filter of `main`: a message is passed to `notify` only when
      the focused window is not titled "TeamSpeak 3". */
  function Filtered(o: Observed): Effect
  {
    if !TeamspeakIsActive(o.activeWindow) then Notify(o.msg) else Quiet
  }

  /** What one tick shows, and the exception that ended it, if any. */
  datatype Log = Log(shown: seq<Notification>, error: Option<Error>)

  /** The messages of one batch, filtered and notified in arrival order
      until the first exception. */
  function RunBatch(batch: seq<Observed>): Log
    decreases |batch|
  {
    if batch == [] then Log([], None)
    else
      var before := RunBatch(batch[..|batch| - 1]);
      if before.error.Some? then before
      else match Filtered(batch[|batch| - 1])
        case Quiet => before
        case Shows(n) => Log(before.shown + [n], None)
        case Raises(e) => Log(before.shown, Some(e))
  }

  /** One iteration of `main`. Only EOFError is caught, and reconnecting
      shows nothing; a TeamspeakConnectionLost escapes the loop. */
  function TickSpec(poll: Poll): Log
  {
    match poll
    case Batch(batch) => RunBatch(batch)
    case Lost(EOFError) => Log([], None)
    case Lost(TeamspeakConnectionLost) => Log([], Some(Unhandled(TeamspeakConnectionLost)))
  }

  /** One iteration of `main`, returning the notifications it shows in turn
      on the single live notification. */
  method Tick(poll: Poll) returns (shown: seq<Notification>, error: Option<Error>)
    ensures Log(shown, error) == TickSpec(poll)
  {
    shown, error := [], None;
    match poll
    case Lost(loss) =>
      if loss == TeamspeakConnectionLost {
        error := Some(Unhandled(loss));
      }
    case Batch(batch) =>
      for i := 0 to |batch|
        invariant RunBatch(batch[..i]) == Log(shown, None)
      {
        RunBatchNext(batch, i);
        var o := batch[i];
        if !TeamspeakIsActive(o.activeWindow) {
          var effect := Notify(o.msg);
          match effect
          case Quiet =>
          case Shows(n) =>
            shown := shown + [n];
          case Raises(e) =>
            RunBatchAppend(batch[..i + 1], batch[i + 1..]);
            assert batch[..i + 1] + batch[i + 1..] == batch;
            return shown, Some(e);
        }
      }
      assert batch[..|batch|] == batch;
  }

  /** A batch split in two shows what its first part shows, then, unless
      that part raised, what its second part shows on its own. */
  lemma {:induction false} RunBatchAppend(a: seq<Observed>, b: seq<Observed>)
    ensures RunBatch(a + b) ==
      if RunBatch(a).error.Some? then RunBatch(a)
      else Log(RunBatch(a).shown + RunBatch(b).shown, RunBatch(b).error)
    decreases |b|
  {
    if b == [] {
      assert a + b == a;
    } else {
      var b' := b[..|b| - 1];
      assert (a + b)[..|a + b| - 1] == a + b';
      RunBatchAppend(a, b');
    }
  }

  /** The batch up to message `i` is the batch before it, then message `i`. */
  lemma RunBatchNext(batch: seq<Observed>, i: nat)
    requires i < |batch|
    ensures var before := RunBatch(batch[..i]);
      RunBatch(batch[..i + 1]) ==
        if before.error.Some? then before
        else match Filtered(batch[i])
          case Quiet => before
          case Shows(n) => Log(before.shown + [n], None)
          case Raises(e) => Log(before.shown, Some(e))
  {
    assert batch[..i + 1][..i] == batch[..i];
  }

  /** The notifications an effect adds: one for `Shows`, none otherwise. */
  function ShownBy(e: Effect): seq<Notification>
  {
    if e.Shows? then [e.notification] else []
  }

  /** Front to back, what each message of a batch shows on its own. */
  function EachShown(batch: seq<Observed>): seq<Notification>
  {
    if batch == [] then [] else ShownBy(Filtered(batch[0])) + EachShown(batch[1..])
  }

  /** When nothing raises, a tick shows exactly what each of its messages
      shows on its own, in arrival order: no message affects another. */
  lemma {:induction false} RunBatchShowsEach(batch: seq<Observed>)
    requires forall i :: 0 <= i < |batch| ==> !Filtered(batch[i]).Raises?
    ensures RunBatch(batch) == Log(EachShown(batch), None)
  {
    if batch != [] {
      var first, rest := batch[..1], batch[1..];
      assert first + rest == batch;
      assert forall i :: 0 <= i < |rest| ==> rest[i] == batch[i + 1];
      assert first[..0] == [];
      RunBatchShowsEach(rest);
      RunBatchAppend(first, rest);
    }
  }

  /** While the focused window is titled "TeamSpeak 3", nothing in the batch
      is shown and nothing raises. */
  lemma {:induction false} FocusedBatchIsQuiet(batch: seq<Observed>)
    requires forall i :: 0 <= i < |batch| ==> TeamspeakIsActive(batch[i].activeWindow)
    ensures RunBatch(batch) == Log([], None)
    decreases |batch|
  {
    if batch != [] {
      FocusedBatchIsQuiet(batch[..|batch| - 1]);
    }
  }
}
