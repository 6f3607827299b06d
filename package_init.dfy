/** The dispatcher of `teamspeaknotifier/__init__.py`: the package version
    1.0.2, which attributes a message by its `clid` alone (indexing it, so a
    message without one raises KeyError) and never marks private messages. */
module PackageInit {
  import opened Protocol
  import opened Roster
  import PyStr
  import Notifier

  const VERSION: seq<nat> := [1, 0, 2]

  /** The version numbers written out, as `str(bit) for bit in __version__`
      gives them. */
  function VersionParts(): (parts: seq<string>)
    ensures |parts| == |VERSION|
    ensures forall i :: 0 <= i < |VERSION| ==> parts[i] == PyStr.Decimal(VERSION[i])
    ensures parts == ["1", "0", "2"]
  {
    seq(|VERSION|, i requires 0 <= i < |VERSION| => PyStr.Decimal(VERSION[i]))
  }

  /** `get_version`: the version numbers joined with dots. */
  function GetVersion(): (v: string)
    ensures v == "1.0.2"
  {
    var parts := VersionParts();
    assert parts[..2] == ["1", "0"] && parts[..2][..1] == ["1"];
    assert PyStr.Join(".", parts[..2]) == "1.0";
    PyStr.Join(".", parts)
  }

  /** The version string reads back as the version numbers. */
  lemma VersionRoundTrip()
    ensures var pieces := PyStr.Split(GetVersion(), '.');
      |pieces| == |VERSION| &&
      forall i :: 0 <= i < |VERSION| ==> PyStr.IsNumeral(pieces[i]) && PyStr.ValueOf(pieces[i]) == VERSION[i]
  {
    var parts := VersionParts();
    assert GetVersion() == PyStr.Join(['.'], parts);
    forall i | 0 <= i < |parts| ensures '.' !in parts[i] {
      assert PyStr.IsNumeral(parts[i]);
    }
    PyStr.SplitJoin('.', parts);
    forall i | 0 <= i < |VERSION| ensures PyStr.ValueOf(parts[i]) == VERSION[i] {
      PyStr.DecimalRoundTrip(VERSION[i]);
    }
  }

  /** `message_is_mine`: the message's `clid` equals the identity; a message
      without `clid` raises KeyError. */
  function MessageIsMine(identity: Option<string>, f: Fields): (r: Result<bool>)
    ensures r.Err? <==> "clid" !in f
    ensures r.Err? ==> r.error == KeyError("clid")
    ensures r.Ok? ==> (r.value <==> identity == Some(f["clid"]))
  {
    if "clid" in f then Ok(Some(f["clid"]) == identity) else Err(KeyError("clid"))
  }

  /** `get_name_for_message`: the roster's nickname for the message's `clid`,
      or the default name when the `clid` or its roster entry is missing. */
  function NameForMessage(clients: map<string, string>, f: Fields): (name: string)
    ensures "clid" in f && f["clid"] in clients ==> name == clients[f["clid"]]
    ensures !("clid" in f && f["clid"] in clients) ==> name == DEFAULT_NAME
  {
    if "clid" in f && f["clid"] in clients then clients[f["clid"]] else DEFAULT_NAME
  }

  /** On a message that carries `clid` the two package versions attribute
      alike; this one decides on `clid` alone where the other falls back to
      `invokerid` and `invokername`. */
  lemma AgreesWithNotifierOnClid(clients: map<string, string>, identity: Option<string>, f: Fields)
    requires "clid" in f
    ensures MessageIsMine(identity, f) == Ok(Notifier.MessageIsMine(clients, identity, f))
    ensures NameForMessage(clients, f) == Notifier.NameForMessage(clients, f)
  {
  }

  /** `notify`: the effect of one message, given whether the chat window is
      focused when it is dispatched. The focus is tested first, so a focused
      window spares a message without `clid` the KeyError. */
  function Dispatch(s: State, m: Message, focused: bool): Step
  {
    var f := m.fields;
    if m.origination == TEXT_MESSAGE then
      if focused then Step(s, None)
      else match MessageIsMine(s.identity, f)
        case Err(e) => Step(s, Some(e))
        case Ok(mine) =>
          if mine then Step(s, None)
          else if "invokername" !in f then Raise(s, "invokername")
          else if "msg" !in f then Raise(s, "msg")
          else Step(s.Show(Notification(f["invokername"] + " said", f["msg"])), None)
    else if m.origination == TALK_STATUS_CHANGE then
      if focused then Step(s, None)
      else match MessageIsMine(s.identity, f)
        case Err(e) => Step(s, Some(e))
        case Ok(mine) =>
          if mine then Step(s, None)
          else if "status" !in f then Raise(s, "status")
          else if f["status"] == "1" then
            Step(s.Show(Notification(NameForMessage(s.clients, f) + " is talking...", "")), None)
          else Step(s, None)
    else if m.origination in MEMBERSHIP_CHANGES then
      Step(s.Send(REFRESH_COMMANDS), None)
    else if m.origination == CLIENT_LIST then
      var r := Rebuild(Entries(m));
      Step(s.(clients := r.roster), r.error)
    else if m.origination == WHOAMI then
      if "clid" in f then Step(s.(identity := Some(f["clid"])), None) else Raise(s, "clid")
    else if m.origination == CONNECT_STATUS_CHANGE then
      if "status" in f then
        Step(s.Show(Notification(PyStr.Title(f["status"]), "Your connection to Teamspeak is now " + f["status"] + ".")), None)
      else Raise(s, "status")
    else Step(s, None)
  }

  /** The messages of one batch, dispatched in arrival order until the first
      exception. */
  function RunBatch(s: State, batch: seq<Observed>): Step
    decreases |batch|
  {
    if batch == [] then Step(s, None)
    else
      var before := RunBatch(s, batch[..|batch| - 1]);
      var o := batch[|batch| - 1];
      if before.error.Some? then before
      else Dispatch(before.state, o.msg, TeamspeakIsActive(o.activeWindow))
  }

  /** One iteration of `main`, with one successful attempt of `connect` after
      a lost connection. */
  function TickSpec(s: State, poll: Poll): Step
  {
    match poll
    case Batch(batch) => RunBatch(s, batch)
    case Lost(_) => Step(s.Show(UNAVAILABLE).Show(READY).Send(REFRESH_COMMANDS), None)
  }

  // Properties of a single dispatch

  /** A text or talk-status message while the chat window is focused changes
      nothing and raises nothing. */
  lemma FocusedIsQuiet(s: State, m: Message)
    requires m.origination == TEXT_MESSAGE || m.origination == TALK_STATUS_CHANGE
    ensures Dispatch(s, m, true) == Step(s, None)
  {
  }

  /** While unfocused, a text or talk-status message without `clid` raises
      KeyError; one whose `clid` is the identity changes nothing. */
  lemma Attribution(s: State, m: Message)
    requires m.origination == TEXT_MESSAGE || m.origination == TALK_STATUS_CHANGE
    ensures "clid" !in m.fields ==> Dispatch(s, m, false) == Step(s, Some(KeyError("clid")))
    ensures "clid" in m.fields && s.identity == Some(m.fields["clid"]) ==> Dispatch(s, m, false) == Step(s, None)
  {
  }

  /** A text message from someone else while unfocused shows
      "<invokername> said" with the message as body, whatever its target
      mode. */
  lemma TextMessageShown(s: State, m: Message)
    requires m.origination == TEXT_MESSAGE
    requires "clid" in m.fields && s.identity != Some(m.fields["clid"])
    ensures var f := m.fields;
      Dispatch(s, m, false) ==
        if "invokername" in f && "msg" in f then
          Step(s.(shown := s.shown + [Notification(f["invokername"] + " said", f["msg"])]), None)
        else Step(s, Some(KeyError(if "invokername" !in f then "invokername" else "msg")))
  {
  }

  /** A talk-status change from someone else while unfocused shows
      "<name> is talking..." for status 1, and nothing for another status. */
  lemma TalkStatusShown(s: State, m: Message)
    requires m.origination == TALK_STATUS_CHANGE
    requires "clid" in m.fields && s.identity != Some(m.fields["clid"])
    ensures "status" !in m.fields ==> Dispatch(s, m, false) == Step(s, Some(KeyError("status")))
    ensures var name := if m.fields["clid"] in s.clients then s.clients[m.fields["clid"]] else "Somebody";
      "status" in m.fields && m.fields["status"] == "1" ==>
        Dispatch(s, m, false) == Step(s.(shown := s.shown + [Notification(name + " is talking...", "")]), None)
    ensures "status" in m.fields && m.fields["status"] != "1" ==> Dispatch(s, m, false) == Step(s, None)
  {
  }

  /** Membership changes send `clientlist` then `whoami` and nothing else; a
      `whoami` response sets the identity; a listing replaces the roster; a
      connection-status change is shown whatever the focus; other tags are
      ignored. */
  lemma OtherTags(s: State, m: Message, focused: bool)
    ensures m.origination in MEMBERSHIP_CHANGES ==>
      Dispatch(s, m, focused) == Step(s.(sent := s.sent + ["clientlist", "whoami"]), None)
    ensures m.origination == WHOAMI && "clid" in m.fields ==>
      Dispatch(s, m, focused) == Step(s.(identity := Some(m.fields["clid"])), None)
    ensures m.origination == CLIENT_LIST ==>
      Dispatch(s, m, focused) == Step(s.(clients := Rebuild(Entries(m)).roster), Rebuild(Entries(m)).error)
    ensures m.origination == CONNECT_STATUS_CHANGE && "status" in m.fields ==>
      Dispatch(s, m, focused) == Step(s.(shown := s.shown + [Notification(
        PyStr.Title(m.fields["status"]), "Your connection to Teamspeak is now " + m.fields["status"] + ".")]), None)
    ensures m.origination !in MEMBERSHIP_CHANGES + {TEXT_MESSAGE, TALK_STATUS_CHANGE, CLIENT_LIST, WHOAMI, CONNECT_STATUS_CHANGE} ==>
      Dispatch(s, m, focused) == Step(s, None)
  {
  }

  /** Only a listing writes the roster and only a `whoami` response writes
      the identity; a dispatch shows at most one notification and only
      appends to the logs. */
  lemma DispatchFrame(s: State, m: Message, focused: bool)
    ensures var t := Dispatch(s, m, focused).state;
      && (m.origination != CLIENT_LIST ==> t.clients == s.clients)
      && (m.origination != WHOAMI ==> t.identity == s.identity)
      && s.shown <= t.shown && |t.shown| <= |s.shown| + 1
      && s.sent <= t.sent
  {
  }

  // Properties of a batch

  /** Dispatching `a` then `b` is dispatching `a + b`. */
  lemma {:induction false} RunBatchAppend(s: State, a: seq<Observed>, b: seq<Observed>)
    ensures RunBatch(s, a + b) ==
      if RunBatch(s, a).error.Some? then RunBatch(s, a) else RunBatch(RunBatch(s, a).state, b)
    decreases |b|
  {
    if b == [] {
      assert a + b == a;
    } else {
      var b' := b[..|b| - 1];
      assert (a + b)[..|a + b| - 1] == a + b';
      RunBatchAppend(s, a, b');
    }
  }

  /** The batch up to message `i` is the batch before it, then message `i`. */
  lemma RunBatchNext(s: State, batch: seq<Observed>, i: nat)
    requires i < |batch|
    ensures var before := RunBatch(s, batch[..i]);
      RunBatch(s, batch[..i + 1]) ==
        if before.error.Some? then before
        else Dispatch(before.state, batch[i].msg, TeamspeakIsActive(batch[i].activeWindow))
  {
    assert batch[..i + 1][..i] == batch[..i];
  }

  /** While the chat window stays focused, a batch of text and talk-status
      messages changes nothing, even messages without `clid`. */
  lemma {:induction false} FocusedBatchIsQuiet(s: State, batch: seq<Observed>)
    requires forall i :: 0 <= i < |batch| ==>
      TeamspeakIsActive(batch[i].activeWindow) &&
      (batch[i].msg.origination == TEXT_MESSAGE || batch[i].msg.origination == TALK_STATUS_CHANGE)
    ensures RunBatch(s, batch) == Step(s, None)
    decreases |batch|
  {
    if batch != [] {
      FocusedBatchIsQuiet(s, batch[..|batch| - 1]);
    }
  }

  /** A lost connection shows "Teamspeak is Unavailable" then "Ready", sends
      the refresh commands, and keeps the roster and the identity. */
  lemma ConnectionLostTick(s: State, loss: Loss)
    ensures TickSpec(s, Lost(loss)) == Step(State(s.clients, s.identity,
      s.shown + [Notification("Teamspeak is Unavailable", "Teamspeak does not appear to be running."),
                 Notification("Ready", "Teamspeak is now listening for messages.")],
      s.sent + ["clientlist", "whoami"]), None)
  {
  }

  /** The notifier of the package: the same state as in `notifier.py`. */
  class TeamspeakNotifier {
    var clients: map<string, string>
    var identity: Option<string>
    var notification: Notification
    var shown: seq<Notification>
    var sent: seq<string>

    ghost predicate Valid()
      reads this
    {
      |shown| > 0 && notification == shown[|shown| - 1]
    }

    function Model(): State
      reads this
    {
      State(clients, identity, shown, sent)
    }

    constructor ()
      ensures Valid()
      ensures Model() == State(map[], None, [STARTING, READY], REFRESH_COMMANDS)
    {
      notification := STARTING;
      shown := [STARTING];
      sent := [];
      clients := map[];
      identity := None;
      new;
      Connect();
    }

    /** `_update_notification`. */
    method UpdateNotification(title: string, body: string := "")
      requires Valid()
      modifies this
      ensures Valid() && notification == Notification(title, body)
      ensures Model() == old(Model()).Show(Notification(title, body))
    {
      notification := Notification(title, body);
      shown := shown + [notification];
    }

    /** The successful attempt of `connect`. */
    method Connect()
      requires Valid()
      modifies this
      ensures Valid()
      ensures Model() == old(Model()).Show(READY).Send(REFRESH_COMMANDS)
    {
      UpdateNotification(READY.title, READY.body);
      SendClientUpdateCommands();
    }

    /** `send_client_update_commands`. */
    method SendClientUpdateCommands()
      requires Valid()
      modifies this
      ensures Valid()
      ensures Model() == old(Model()).Send(REFRESH_COMMANDS)
    {
      sent := sent + [CLIENT_LIST];
      sent := sent + [WHOAMI];
    }

    /** `update_identity`. */
    method UpdateIdentity(m: Message) returns (error: Option<Error>)
      requires Valid()
      modifies this
      ensures Valid()
      ensures error == (if "clid" in m.fields then None else Some(KeyError("clid")))
      ensures Model() == if "clid" in m.fields then old(Model()).(identity := Some(m.fields["clid"])) else old(Model())
    {
      if "clid" !in m.fields {
        return Some(KeyError("clid"));
      }
      identity := Some(m.fields["clid"]);
      error := None;
    }

    /** `update_client_list`. */
    method UpdateClientList(m: Message) returns (error: Option<Error>)
      requires Valid()
      modifies this
      ensures Valid()
      ensures Model() == old(Model()).(clients := Rebuild(Entries(m)).roster)
      ensures error == Rebuild(Entries(m)).error
    {
      clients := map[];
      var responses := Entries(m);
      var i := 0;
      while i < |responses|
        invariant 0 <= i <= |responses|
        invariant Valid() && Model() == old(Model()).(clients := clients)
        invariant Rebuild(responses[..i]) == Rebuilt(clients, None)
      {
        var info := responses[i];
        assert responses[..i + 1][..i] == responses[..i];
        if "client_nickname" !in info || "clid" !in info {
          RebuildAppendFailed(responses, i);
          return Some(KeyError(if "client_nickname" !in info then "client_nickname" else "clid"));
        }
        clients := clients[info["clid"] := info["client_nickname"]];
        i := i + 1;
      }
      assert responses[..i] == responses;
      error := None;
    }

    /** `notify`. */
    method Notify(m: Message, focused: bool) returns (error: Option<Error>)
      requires Valid()
      modifies this
      ensures Valid()
      ensures Step(Model(), error) == Dispatch(old(Model()), m, focused)
    {
      var f := m.fields;
      error := None;
      if m.origination == TEXT_MESSAGE || m.origination == TALK_STATUS_CHANGE {
        if !focused {
          var mine := MessageIsMine(identity, f);
          if mine.Err? { return Some(mine.error); }
          if !mine.value {
            if m.origination == TEXT_MESSAGE {
              if "invokername" !in f { return Some(KeyError("invokername")); }
              if "msg" !in f { return Some(KeyError("msg")); }
              UpdateNotification(f["invokername"] + " said", f["msg"]);
            } else {
              if "status" !in f { return Some(KeyError("status")); }
              if f["status"] == "1" {
                UpdateNotification(NameForMessage(clients, f) + " is talking...");
              }
            }
          }
        }
      } else if m.origination in MEMBERSHIP_CHANGES {
        SendClientUpdateCommands();
      } else if m.origination == CLIENT_LIST {
        error := UpdateClientList(m);
      } else if m.origination == WHOAMI {
        error := UpdateIdentity(m);
      } else if m.origination == CONNECT_STATUS_CHANGE {
        if "status" !in f { return Some(KeyError("status")); }
        UpdateNotification(PyStr.Title(f["status"]), "Your connection to Teamspeak is now " + f["status"] + ".");
      }
    }

    /** The `for` loop of `main`: each message is dispatched with the focus
        observed when it is handled, and the first exception ends the loop. */
    method DispatchBatch(batch: seq<Observed>) returns (error: Option<Error>)
      requires Valid()
      modifies this
      ensures Valid()
      ensures Step(Model(), error) == RunBatch(old(Model()), batch)
    {
      ghost var s := Model();
      for i := 0 to |batch|
        invariant Valid()
        invariant RunBatch(s, batch[..i]) == Step(Model(), None)
      {
        var o := batch[i];
        RunBatchNext(s, batch, i);
        error := Notify(o.msg, TeamspeakIsActive(o.activeWindow));
        if error.Some? {
          RunBatchAppend(s, batch[..i + 1], batch[i + 1..]);
          assert batch[..i + 1] + batch[i + 1..] == batch;
          return;
        }
      }
      assert batch[..|batch|] == batch;
      error := None;
    }

    /** One iteration of `main`, without the sleep that ends it. */
    method Tick(poll: Poll) returns (error: Option<Error>)
      requires Valid()
      modifies this
      ensures Valid()
      ensures Step(Model(), error) == TickSpec(old(Model()), poll)
    {
      match poll
      case Lost(_) =>
        UpdateNotification(UNAVAILABLE.title, UNAVAILABLE.body);
        Connect();
        error := None;
      case Batch(batch) =>
        error := DispatchBatch(batch);
    }
  }
}
