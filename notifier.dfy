/** The dispatcher of `teamspeaknotifier/notifier.py`: the version that
    attributes a message to its sender by `clid`, then `invokerid`, then
    `invokername`, and marks private messages in the title. */
module Notifier {
  import opened Protocol
  import opened Roster
  import PyStr

  const TARGETMODE_CLIENT := "1"

  /** `message_is_mine`: the first of `clid`, `invokerid`, `invokername`
      that the message carries decides. An id is compared with the user's
      identity; a name with the roster's nickname for that identity. Without
      any of the three, or when the roster lookup misses, the message is not
      the user's. It never raises. */
  function MessageIsMine(clients: map<string, string>, identity: Option<string>, f: Fields): (mine: bool)
    ensures "clid" in f ==> (mine <==> identity == Some(f["clid"]))
    ensures "clid" !in f && "invokerid" in f ==> (mine <==> identity == Some(f["invokerid"]))
    ensures "clid" !in f && "invokerid" !in f && "invokername" in f ==>
      (mine <==> identity.Some? && identity.value in clients && clients[identity.value] == f["invokername"])
    ensures "clid" !in f && "invokerid" !in f && "invokername" !in f ==> !mine
    ensures mine ==> identity.Some?
  {
    if "clid" in f then Some(f["clid"]) == identity
    else if "invokerid" in f then Some(f["invokerid"]) == identity
    else if "invokername" in f then
      identity.Some? && identity.value in clients && clients[identity.value] == f["invokername"]
    else false
  }

  /** `get_name_for_message`: the first of `clid`, `invokerid`, `invokername`
      that the message carries decides. An id is looked up in the roster (a
      miss gives the default name, without trying the next field); a name is
      taken as it is. Without any of the three, the default name. */
  function NameForMessage(clients: map<string, string>, f: Fields): (name: string)
    ensures "clid" in f ==>
      name == if f["clid"] in clients then clients[f["clid"]] else DEFAULT_NAME
    ensures "clid" !in f && "invokerid" in f ==>
      name == if f["invokerid"] in clients then clients[f["invokerid"]] else DEFAULT_NAME
    ensures "clid" !in f && "invokerid" !in f ==>
      name == if "invokername" in f then f["invokername"] else DEFAULT_NAME
    ensures name == DEFAULT_NAME || name in clients.Values || ("invokername" in f && name == f["invokername"])
  {
    if "clid" in f then (if f["clid"] in clients then clients[f["clid"]] else DEFAULT_NAME)
    else if "invokerid" in f then (if f["invokerid"] in clients then clients[f["invokerid"]] else DEFAULT_NAME)
    else if "invokername" in f then f["invokername"]
    else DEFAULT_NAME
  }

  /** Who a message is attributed to, as a precedence resolver over the
      fields it carries; an independent statement of the rule that both
      `MessageIsMine` and `NameForMessage` implement. */
  datatype Attribution = ByClientId(id: string) | ByInvokerId(id: string) | ByInvokerName(name: string) | Unattributable

  function Attribute(f: Fields): Attribution
  {
    if "clid" in f then ByClientId(f["clid"])
    else if "invokerid" in f then ByInvokerId(f["invokerid"])
    else if "invokername" in f then ByInvokerName(f["invokername"])
    else Unattributable
  }

  /** Both lookups follow the resolver, and both fail closed. */
  lemma AttributionAgrees(clients: map<string, string>, identity: Option<string>, f: Fields)
    ensures MessageIsMine(clients, identity, f) ==
      match Attribute(f)
      case ByClientId(id) => identity == Some(id)
      case ByInvokerId(id) => identity == Some(id)
      case ByInvokerName(n) => identity.Some? && identity.value in clients && clients[identity.value] == n
      case Unattributable => false
    ensures NameForMessage(clients, f) ==
      match Attribute(f)
      case ByClientId(id) => if id in clients then clients[id] else DEFAULT_NAME
      case ByInvokerId(id) => if id in clients then clients[id] else DEFAULT_NAME
      case ByInvokerName(n) => n
      case Unattributable => DEFAULT_NAME
  {
  }

  /** The title of a shown text message. */
  function TextTitle(invokername: string, targetmode: string): string
  {
    if targetmode == TARGETMODE_CLIENT then invokername + " said (in private message)"
    else invokername + " said"
  }

  /** The notification of a connection-status change. */
  function ConnectStatusNotification(status: string): Notification
  {
    Notification(PyStr.Title(status), "Your connection to Teamspeak is now " + status + ".")
  }

  /** `notify`: the effect of one message on the dispatcher, given whether the
      chat window is focused when it is dispatched. */
  function Dispatch(s: State, m: Message, focused: bool): Step
  {
    var f := m.fields;
    if m.origination == TEXT_MESSAGE then
      if focused || MessageIsMine(s.clients, s.identity, f) then Step(s, None)
      else if "targetmode" !in f then Raise(s, "targetmode")
      else if "invokername" !in f then Raise(s, "invokername")
      else if "msg" !in f then Raise(s, "msg")
      else Step(s.Show(Notification(TextTitle(f["invokername"], f["targetmode"]), f["msg"])), None)
    else if m.origination == TALK_STATUS_CHANGE then
      if focused || MessageIsMine(s.clients, s.identity, f) then Step(s, None)
      else if "status" !in f then Raise(s, "status")
      else if f["status"] == "1" then
        Step(s.Show(Notification(NameForMessage(s.clients, f) + " is talking...", "")), None)
      else Step(s, None)
    else if m.origination in MEMBERSHIP_CHANGES then
      Step(s.Send(REFRESH_COMMANDS), None)
    else if m.origination == CLIENT_LIST then
      var r := Rebuild(Entries(m));
      Step(s.(clients := r.roster), r.error)
    else if m.origination == WHOAMI then
      if "clid" in f then Step(s.(identity := Some(f["clid"])), None) else Raise(s, "clid")
    else if m.origination == CONNECT_STATUS_CHANGE then
      if "status" in f then Step(s.Show(ConnectStatusNotification(f["status"])), None)
      else Raise(s, "status")
    else Step(s, None)
  }

  /** The messages of one batch, dispatched in arrival order; the first
      exception ends the batch (and the process, since the loop does not
      catch it). */
  function RunBatch(s: State, batch: seq<Observed>): Step
    decreases |batch|
  {
    if batch == [] then Step(s, None)
    else
      var before := RunBatch(s, batch[..|batch| - 1]);
      var o := batch[|batch| - 1];
      if before.error.Some? then before
      else Dispatch(before.state, o.msg, TeamspeakIsActive(o.activeWindow))
  }

  /** One iteration of `main`: dispatch a batch, or, on a lost connection,
      say so and reconnect (the retries of `connect` inside it are not
      modelled: one successful attempt shows "Ready" and sends the two
      refresh commands). */
  function TickSpec(s: State, poll: Poll): Step
  {
    match poll
    case Batch(batch) => RunBatch(s, batch)
    case Lost(_) => Step(s.Show(UNAVAILABLE).Show(READY).Send(REFRESH_COMMANDS), None)
  }

  // Properties of a single dispatch

  /** A text or talk-status message while the chat window is focused changes
      nothing. */
  lemma FocusedIsQuiet(s: State, m: Message)
    requires m.origination == TEXT_MESSAGE || m.origination == TALK_STATUS_CHANGE
    ensures Dispatch(s, m, true) == Step(s, None)
  {
  }

  /** A text or talk-status message of the user's own changes nothing,
      whether or not the window is focused. */
  lemma OwnMessageIsQuiet(s: State, m: Message, focused: bool)
    requires m.origination == TEXT_MESSAGE || m.origination == TALK_STATUS_CHANGE
    requires MessageIsMine(s.clients, s.identity, m.fields)
    ensures Dispatch(s, m, focused) == Step(s, None)
  {
  }

  /** A text message from someone else while unfocused shows its sender's
      name, marked private for target mode 1, with the message as body; a
      missing field raises KeyError and changes nothing. */
  lemma TextMessageShown(s: State, m: Message)
    requires m.origination == TEXT_MESSAGE
    requires !MessageIsMine(s.clients, s.identity, m.fields)
    ensures var f := m.fields;
      Dispatch(s, m, false) ==
        if "targetmode" in f && "invokername" in f && "msg" in f then
          Step(s.(shown := s.shown + [Notification(
            if f["targetmode"] == "1" then f["invokername"] + " said (in private message)"
            else f["invokername"] + " said",
            f["msg"])]), None)
        else Step(s, Some(KeyError(
          if "targetmode" !in f then "targetmode" else if "invokername" !in f then "invokername" else "msg")))
  {
  }

  /** A talk-status change from someone else while unfocused shows
      "<name> is talking..." with an empty body when the status is 1, and
      nothing for any other status. */
  lemma TalkStatusShown(s: State, m: Message)
    requires m.origination == TALK_STATUS_CHANGE
    requires !MessageIsMine(s.clients, s.identity, m.fields)
    ensures "status" !in m.fields ==> Dispatch(s, m, false) == Step(s, Some(KeyError("status")))
    ensures "status" in m.fields && m.fields["status"] == "1" ==>
      Dispatch(s, m, false) ==
        Step(s.(shown := s.shown + [Notification(NameForMessage(s.clients, m.fields) + " is talking...", "")]), None)
    ensures "status" in m.fields && m.fields["status"] != "1" ==> Dispatch(s, m, false) == Step(s, None)
  {
  }

  /** A peer that moves, leaves or enters sends `clientlist` then `whoami`
      and changes nothing else. */
  lemma MembershipChangeRefreshes(s: State, m: Message, focused: bool)
    requires m.origination in MEMBERSHIP_CHANGES
    ensures Dispatch(s, m, focused) == Step(s.(sent := s.sent + ["clientlist", "whoami"]), None)
  {
  }

  /** A roster listing replaces the roster wholesale: the new one does not
      depend on the old one, holds exactly the listed `clid`s when the
      listing is well formed, and nothing but the roster changes. */
  lemma ClientListReplacesRoster(s: State, m: Message, focused: bool)
    requires m.origination == CLIENT_LIST
    ensures var r := Dispatch(s, m, focused);
      r.state == s.(clients := r.state.clients) && r.state.clients == Rebuild(Entries(m)).roster
    ensures var es := Entries(m);
      WellFormed(es) ==>
        Dispatch(s, m, focused).error.None? &&
        Dispatch(s, m, focused).state.clients.Keys == set i | 0 <= i < |es| :: es[i]["clid"]
  {
    var es := Entries(m);
    RebuildFails(es);
    if WellFormed(es) {
      RebuildKeys(es);
    }
  }

  /** A `whoami` response sets the identity to its `clid` and touches
      nothing else. */
  lemma WhoAmISetsIdentity(s: State, m: Message, focused: bool)
    requires m.origination == WHOAMI && "clid" in m.fields
    ensures Dispatch(s, m, focused) == Step(s.(identity := Some(m.fields["clid"])), None)
  {
  }

  /** A connection-status change is shown whatever the focus and whoever
      the message is from. */
  lemma ConnectStatusAlwaysShown(s: State, m: Message, focused: bool)
    requires m.origination == CONNECT_STATUS_CHANGE && "status" in m.fields
    ensures Dispatch(s, m, focused) == Step(s.(shown := s.shown + [Notification(
      PyStr.Title(m.fields["status"]),
      "Your connection to Teamspeak is now " + m.fields["status"] + ".")]), None)
  {
  }

  /** A message with any other tag changes nothing. */
  lemma UnknownTagIgnored(s: State, m: Message, focused: bool)
    requires m.origination !in {TEXT_MESSAGE, TALK_STATUS_CHANGE, CLIENT_LIST, WHOAMI, CONNECT_STATUS_CHANGE}
    requires m.origination !in MEMBERSHIP_CHANGES
    ensures Dispatch(s, m, focused) == Step(s, None)
  {
  }

  /** Only a roster listing writes the roster and only a `whoami` response
      writes the identity; a dispatch shows at most one notification and
      only ever appends to the logs. */
  lemma DispatchFrame(s: State, m: Message, focused: bool)
    ensures var t := Dispatch(s, m, focused).state;
      && (m.origination != CLIENT_LIST ==> t.clients == s.clients)
      && (m.origination != WHOAMI ==> t.identity == s.identity)
      && s.shown <= t.shown && |t.shown| <= |s.shown| + 1
      && s.sent <= t.sent
  {
  }

  /** Refreshing twice with the same responses leaves the roster and the
      identity as refreshing once did. Each refresh gets past both responses
      exactly when the listing is well formed and the `whoami` response has a
      `clid`; otherwise the KeyError ends the loop. */
  lemma RefreshIdempotent(s: State, list: Message, who: Message, focused: bool)
    requires list.origination == CLIENT_LIST && who.origination == WHOAMI
    ensures var listed := Dispatch(s, list, focused);
      var once := Dispatch(listed.state, who, focused);
      var relisted := Dispatch(once.state, list, focused);
      var twice := Dispatch(relisted.state, who, focused);
      && (listed.error.None? <==> WellFormed(Entries(list)))
      && (relisted.error.None? <==> WellFormed(Entries(list)))
      && (once.error.None? <==> "clid" in who.fields)
      && (twice.error.None? <==> "clid" in who.fields)
      && twice.state.clients == once.state.clients && twice.state.identity == once.state.identity
  {
    RebuildFails(Entries(list));
  }

  // Properties of a batch

  /** Dispatching `a` then `b` is dispatching `a + b`: messages are handled in
      arrival order, and an exception ends the batch. */
  lemma {:induction false} RunBatchAppend(s: State, a: seq<Observed>, b: seq<Observed>)
    ensures RunBatch(s, a + b) ==
      if RunBatch(s, a).error.Some? then RunBatch(s, a) else RunBatch(RunBatch(s, a).state, b)
    decreases |b|
  {
    if b == [] {
      assert a + b == a;
    } else {
      var b' := b[..|b| - 1];
      assert (a + b)[..|a + b| - 1] == a + b';
      RunBatchAppend(s, a, b');
    }
  }

  /** The batch up to message `i` is the batch before it, then message `i`. */
  lemma RunBatchNext(s: State, batch: seq<Observed>, i: nat)
    requires i < |batch|
    ensures var before := RunBatch(s, batch[..i]);
      RunBatch(s, batch[..i + 1]) ==
        if before.error.Some? then before
        else Dispatch(before.state, batch[i].msg, TeamspeakIsActive(batch[i].activeWindow))
  {
    assert batch[..i + 1][..i] == batch[..i];
  }

  /** While the chat window stays focused, a batch of text and talk-status
      messages changes nothing. */
  lemma {:induction false} FocusedBatchIsQuiet(s: State, batch: seq<Observed>)
    requires forall i :: 0 <= i < |batch| ==>
      TeamspeakIsActive(batch[i].activeWindow) &&
      (batch[i].msg.origination == TEXT_MESSAGE || batch[i].msg.origination == TALK_STATUS_CHANGE)
    ensures RunBatch(s, batch) == Step(s, None)
    decreases |batch|
  {
    if batch != [] {
      FocusedBatchIsQuiet(s, batch[..|batch| - 1]);
    }
  }

  /** Over a batch, the roster and identity change only through listings and
      `whoami` responses, and the logs only grow, by at most one
      notification per message. */
  lemma {:induction false} RunBatchFrame(s: State, batch: seq<Observed>)
    ensures var t := RunBatch(s, batch).state;
      && ((forall i :: 0 <= i < |batch| ==> batch[i].msg.origination != CLIENT_LIST) ==> t.clients == s.clients)
      && ((forall i :: 0 <= i < |batch| ==> batch[i].msg.origination != WHOAMI) ==> t.identity == s.identity)
      && s.shown <= t.shown && |t.shown| <= |s.shown| + |batch|
      && s.sent <= t.sent
    decreases |batch|
  {
    if batch != [] {
      var init := batch[..|batch| - 1];
      assert forall i :: 0 <= i < |init| ==> init[i] == batch[i];
      RunBatchFrame(s, init);
      var o := batch[|batch| - 1];
      DispatchFrame(RunBatch(s, init).state, o.msg, TeamspeakIsActive(o.activeWindow));
    }
  }

  /** A lost connection shows exactly "Teamspeak is Unavailable" and then
      "Ready", sends the two refresh commands, and keeps the roster and the
      identity. */
  lemma ConnectionLostTick(s: State, loss: Loss)
    ensures TickSpec(s, Lost(loss)) == Step(State(s.clients, s.identity,
      s.shown + [Notification("Teamspeak is Unavailable", "Teamspeak does not appear to be running."),
                 Notification("Ready", "Teamspeak is now listening for messages.")],
      s.sent + ["clientlist", "whoami"]), None)
  {
  }

  /** The notifier: the roster, the identity, the live notification, and
      the logs of what was shown and sent. */
  class TeamspeakNotifier {
    var clients: map<string, string>
    var identity: Option<string>
    var notification: Notification
    var shown: seq<Notification>
    var sent: seq<string>

    /** The live notification is the last one shown. */
    ghost predicate Valid()
      reads this
    {
      |shown| > 0 && notification == shown[|shown| - 1]
    }

    function Model(): State
      reads this
    {
      State(clients, identity, shown, sent)
    }

    /** Shows "Starting", connects, and starts with an empty roster and no
        identity. */
    constructor ()
      ensures Valid()
      ensures Model() == State(map[], None, [STARTING, READY], REFRESH_COMMANDS)
    {
      notification := STARTING;
      shown := [STARTING];
      sent := [];
      clients := map[];
      identity := None;
      new;
      Connect();
    }

    /** `_update_notification`: the live notification is updated and shown. */
    method UpdateNotification(title: string, body: string := "")
      requires Valid()
      modifies this
      ensures Valid() && notification == Notification(title, body)
      ensures Model() == old(Model()).Show(Notification(title, body))
    {
      notification := Notification(title, body);
      shown := shown + [notification];
    }

    /** The successful attempt of `connect`. */
    method Connect()
      requires Valid()
      modifies this
      ensures Valid()
      ensures Model() == old(Model()).Show(READY).Send(REFRESH_COMMANDS)
    {
      UpdateNotification(READY.title, READY.body);
      SendClientUpdateCommands();
    }

    /** `send_client_update_commands`: `clientlist`, then `whoami`. */
    method SendClientUpdateCommands()
      requires Valid()
      modifies this
      ensures Valid()
      ensures Model() == old(Model()).Send(REFRESH_COMMANDS)
    {
      sent := sent + [CLIENT_LIST];
      sent := sent + [WHOAMI];
    }

    /** `update_identity`: the identity becomes the message's `clid`. */
    method UpdateIdentity(m: Message) returns (error: Option<Error>)
      requires Valid()
      modifies this
      ensures Valid()
      ensures error == (if "clid" in m.fields then None else Some(KeyError("clid")))
      ensures Model() == if "clid" in m.fields then old(Model()).(identity := Some(m.fields["clid"])) else old(Model())
    {
      if "clid" !in m.fields {
        return Some(KeyError("clid"));
      }
      identity := Some(m.fields["clid"]);
      error := None;
    }

    /** `update_client_list`: the roster is emptied and refilled from the
        listing's entries, in order. */
    method UpdateClientList(m: Message) returns (error: Option<Error>)
      requires Valid()
      modifies this
      ensures Valid()
      ensures Model() == old(Model()).(clients := Rebuild(Entries(m)).roster)
      ensures error == Rebuild(Entries(m)).error
    {
      clients := map[];
      var responses := Entries(m);
      var i := 0;
      while i < |responses|
        invariant 0 <= i <= |responses|
        invariant Valid() && Model() == old(Model()).(clients := clients)
        invariant Rebuild(responses[..i]) == Rebuilt(clients, None)
      {
        var info := responses[i];
        assert responses[..i + 1][..i] == responses[..i];
        if "client_nickname" !in info {
          RebuildAppendFailed(responses, i);
          return Some(KeyError("client_nickname"));
        }
        if "clid" !in info {
          RebuildAppendFailed(responses, i);
          return Some(KeyError("clid"));
        }
        clients := clients[info["clid"] := info["client_nickname"]];
        i := i + 1;
      }
      assert responses[..i] == responses;
      error := None;
    }

    /** `notify`. */
    method Notify(m: Message, focused: bool) returns (error: Option<Error>)
      requires Valid()
      modifies this
      ensures Valid()
      ensures Step(Model(), error) == Dispatch(old(Model()), m, focused)
    {
      var f := m.fields;
      error := None;
      if m.origination == TEXT_MESSAGE {
        if !focused && !MessageIsMine(clients, identity, f) {
          if "targetmode" !in f { return Some(KeyError("targetmode")); }
          var title;
          if "invokername" !in f { return Some(KeyError("invokername")); }
          if f["targetmode"] == TARGETMODE_CLIENT {
            title := f["invokername"] + " said (in private message)";
          } else {
            title := f["invokername"] + " said";
          }
          if "msg" !in f { return Some(KeyError("msg")); }
          UpdateNotification(title, f["msg"]);
        }
      } else if m.origination == TALK_STATUS_CHANGE {
        if !focused && !MessageIsMine(clients, identity, f) {
          if "status" !in f { return Some(KeyError("status")); }
          if f["status"] == "1" {
            UpdateNotification(NameForMessage(clients, f) + " is talking...");
          }
        }
      } else if m.origination in MEMBERSHIP_CHANGES {
        SendClientUpdateCommands();
      } else if m.origination == CLIENT_LIST {
        error := UpdateClientList(m);
      } else if m.origination == WHOAMI {
        error := UpdateIdentity(m);
      } else if m.origination == CONNECT_STATUS_CHANGE {
        if "status" !in f { return Some(KeyError("status")); }
        UpdateNotification(PyStr.Title(f["status"]), "Your connection to Teamspeak is now " + f["status"] + ".");
      }
    }

    /** The `for` loop of `main`: each message is dispatched with the focus
        observed when it is handled, and the first exception ends the loop. */
    method DispatchBatch(batch: seq<Observed>) returns (error: Option<Error>)
      requires Valid()
      modifies this
      ensures Valid()
      ensures Step(Model(), error) == RunBatch(old(Model()), batch)
    {
      ghost var s := Model();
      for i := 0 to |batch|
        invariant Valid()
        invariant RunBatch(s, batch[..i]) == Step(Model(), None)
      {
        var o := batch[i];
        RunBatchNext(s, batch, i);
        error := Notify(o.msg, TeamspeakIsActive(o.activeWindow));
        if error.Some? {
          RunBatchAppend(s, batch[..i + 1], batch[i + 1..]);
          assert batch[..i + 1] + batch[i + 1..] == batch;
          return;
        }
      }
      assert batch[..|batch|] == batch;
      error := None;
    }

    /** One iteration of `main`, without the sleep that ends it. */
    method Tick(poll: Poll) returns (error: Option<Error>)
      requires Valid()
      modifies this
      ensures Valid()
      ensures Step(Model(), error) == TickSpec(old(Model()), poll)
    {
      match poll
      case Lost(_) =>
        UpdateNotification(UNAVAILABLE.title, UNAVAILABLE.body);
        Connect();
        error := None;
      case Batch(batch) =>
        error := DispatchBatch(batch);
    }
  }
}
