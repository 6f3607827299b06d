# Teamspeak notifier: a Dafny model of its event dispatcher

The Teamspeak notifier polls the ClientQuery interface of a running
TeamSpeak 3 client and shows desktop notifications for what happens there.
It keeps a roster (client id to nickname) and the user's own client id (the
identity). It dispatches each inbound message on its tag:

- Text messages and talk-status changes are shown only while the TeamSpeak
  window is not focused and the message is not the user's own.
- A membership change (a peer moved, left or entered view) sends the two
  refresh commands `clientlist` and `whoami`.
- A `clientlist` response rebuilds the roster.
- A `whoami` response sets the identity.
- A connection-status change is always shown.

The repository holds three versions of this dispatcher. Each is modelled in
its own module:

- `Notifier` (`notifier.dfy`) models `teamspeaknotifier/notifier.py`. It
  attributes a message to its sender by `clid`, else `invokerid`, else
  `invokername`, and it marks private messages in the title.
- `PackageInit` (`package_init.dfy`) models `teamspeaknotifier/__init__.py`,
  the package at version 1.0.2. It attributes a message by `clid` alone.
- `NotifyScript` (`notify_script.dfy`) models `teamspeak_notify.py`, the
  original script. It has no roster and no identity, filters only on the
  focused window, and dispatches on the message's `command`.

Three shared modules support them:

- `Protocol` (`protocol.dfy`): the message, the notification, the errors,
  one poll of the session, and the dispatcher state of the package versions.
- `Roster` (`roster.dfy`): the roster rebuild, line for line the same in
  both package files.
- `PyStr` (`pystr.dfy`): `str.title()` on ASCII, `str(n)` and `join`, which
  the program uses, and a one-character `split`, which it does not. `split`
  is there only to state that the version string reads back as the version
  numbers (`PackageInit.VersionRoundTrip`).

How the model is built:

- A message is a map of named fields. `message['k']` on a missing field
  raises KeyError. In `notifier.py` the two lookups `message_is_mine` and
  `get_name_for_message` catch it and fail closed. `main` catches only a lost
  connection (notifier.py:140, __init__.py:144, teamspeak_notify.py:76). So a
  KeyError that `notify` raises anywhere else ends the loop. The model
  returns it as an error, and the tick stops there.
  - When `update_client_list` raises part-way through, it leaves the roster
    built from the entries before the bad one. The model keeps that partial
    roster.
- The window query is an input. Each message of a batch comes with the title
  of the focused window at its dispatch (none when the query finds nothing).
  "Focused" means that title is `TeamSpeak 3`.
- Notifications shown and commands sent are recorded as logs (`shown`,
  `sent`). The class's `notification` field is always the last one shown.
- Each package class is `TeamspeakNotifier`. Its methods are proved against
  pure functions of the state: `Dispatch` for `notify`, `RunBatch` and
  `TickSpec` for one iteration of `main`. The properties are lemmas about
  those functions.

Consequences of the code as written:

- Malformed messages are not recovered. The code indexes `targetmode`,
  `invokername`, `msg`, `status`, `clid` and `client_nickname` directly. A
  message lacking one of these raises out of `main`. The model returns that
  error.
- In `__init__.py`, while the window is not focused, `message_is_mine`
  raises KeyError on every text or talk-status message without `clid`
  (`PackageInit.Attribution`).
- `teamspeak_notify.py` catches only `EOFError`, so a
  `TeamspeakConnectionLost` escapes its loop. The model takes the library's
  two exceptions to be distinct, because the library's exception hierarchy is
  not part of this model.

## Model

| member | source | states |
|---|---|---|
| `Protocol.TeamspeakIsActive` | teamspeaknotifier/notifier.py:131-132 | Definition, with no contract of its own. The chat window is focused exactly when the observed title is "TeamSpeak 3". A missing title counts as not focused. All three versions share it (also __init__.py:135-136 and teamspeak_notify.py:74). Used by `FocusedIsQuiet` and `FocusedBatchIsQuiet`. |
| `Protocol.Entries` | teamspeaknotifier/notifier.py:99-102 | Definition, with no contract of its own. A listing's entries are its `responses`, or the message itself when it has none. Its properties are in `Roster.RebuildKeys` and the other `Rebuild` lemmas, applied to `Entries(m)`. |
| `Notifier.Dispatch` | teamspeaknotifier/notifier.py:58-83 | Definition, with no contract of its own. It is `notify` as a function of the state. `TeamspeakNotifier.Notify` is proved equal to it. Its properties are `FocusedIsQuiet`, `OwnMessageIsQuiet`, `TextMessageShown`, `TalkStatusShown`, `MembershipChangeRefreshes`, `ClientListReplacesRoster`, `WhoAmISetsIdentity`, `ConnectStatusAlwaysShown`, `UnknownTagIgnored`, `DispatchFrame` and `RefreshIdempotent`. |
| `Notifier.RunBatch` | teamspeaknotifier/notifier.py:137-139 | Definition, with no contract of its own. It is the `for` loop of `main`. `TeamspeakNotifier.DispatchBatch` is proved equal to it. Its properties are `RunBatchAppend`, `RunBatchFrame` and `FocusedBatchIsQuiet`. |
| `Notifier.TickSpec` | teamspeaknotifier/notifier.py:134-143 | Definition, with no contract of its own. It is one iteration of `main`. `TeamspeakNotifier.Tick` is proved equal to it. Its properties are `ConnectionLostTick` and the `RunBatch` lemmas. |
| `Notifier.MessageIsMine` | teamspeaknotifier/notifier.py:107-117 | The first of `clid`, `invokerid`, `invokername` that the message carries decides. An id must equal the identity. A name must equal the roster's nickname for the identity. With none of them, or with a roster miss, the answer is false. A true answer implies an identity is set. The function has no precondition, so it never raises. |
| `Notifier.NameForMessage` | teamspeaknotifier/notifier.py:119-129 | The same precedence. An id is looked up in the roster, and a miss gives "Somebody" without trying the next field. A name is returned as it is. With no field, "Somebody". The result is always "Somebody", a roster nickname, or the invoker name. |
| `Notifier.AttributionAgrees` | teamspeaknotifier/notifier.py:107-129 | Both lookups agree with an independent resolver {by client id, by invoker id, by invoker name, unattributable}, and both fail closed on unattributable messages. |
| `Notifier.FocusedIsQuiet` | teamspeaknotifier/notifier.py:59-72 | A text or talk-status message while TeamSpeak is focused changes nothing: no notification, and the roster and identity stay as they were. |
| `Notifier.OwnMessageIsQuiet` | teamspeaknotifier/notifier.py:59-72 | A text or talk-status message that `message_is_mine` attributes to the user changes nothing, whatever the focus. |
| `Notifier.TextMessageShown` | teamspeaknotifier/notifier.py:59-65 | An unfocused text message from someone else shows "<invokername> said (in private message)" when `targetmode` is "1", and "<invokername> said" otherwise, with `msg` as body. If a field is missing, KeyError names the first missing one in the order targetmode, invokername, msg, and the state is unchanged. |
| `Notifier.TalkStatusShown` | teamspeaknotifier/notifier.py:66-72 | An unfocused talk-status change from someone else with status "1" shows "<name> is talking..." with an empty body. Any other status shows nothing. A missing status raises KeyError. |
| `Notifier.MembershipChangeRefreshes` | teamspeaknotifier/notifier.py:73-74 | A moved, left-view or entered-view event sends exactly `clientlist` then `whoami`. Nothing else changes. |
| `Notifier.ClientListReplacesRoster` | teamspeaknotifier/notifier.py:75-76 | A listing sets the roster to the rebuild of its entries, which does not depend on the old roster. Nothing else changes. For a well-formed listing the key set is exactly the listed `clid`s and no error is raised. |
| `Notifier.WhoAmISetsIdentity` | teamspeaknotifier/notifier.py:77-78 | A `whoami` response sets the identity to its `clid`. The roster and the logs are untouched. |
| `Notifier.ConnectStatusAlwaysShown` | teamspeaknotifier/notifier.py:79-83 | A connection-status change shows title `status.title()` and body "Your connection to Teamspeak is now <status>.", whatever the focus or sender. |
| `Notifier.UnknownTagIgnored` | teamspeaknotifier/notifier.py:58-83 | A message with any other tag changes nothing. |
| `Notifier.DispatchFrame` | teamspeaknotifier/notifier.py:58-83 | Only a listing changes the roster, and only `whoami` changes the identity. One message adds at most one notification. Both logs only grow. |
| `Notifier.RefreshIdempotent` | teamspeaknotifier/notifier.py:93-104 | A refresh gets past the listing exactly when every entry carries `clid` and `client_nickname`. It gets past `whoami` exactly when the response has a `clid`. Otherwise the KeyError ends the loop. Refreshing twice with the same `clientlist` and `whoami` responses leaves the roster and identity as refreshing once did. |
| `Notifier.RunBatchAppend` | teamspeaknotifier/notifier.py:137-139 | Messages are dispatched in arrival order. Running `a + b` is running `a`, then `b`, unless `a` raised, which ends the batch. |
| `Notifier.FocusedBatchIsQuiet` | teamspeaknotifier/notifier.py:137-139 | While TeamSpeak stays focused, a batch of text and talk-status messages leaves the whole state unchanged. |
| `Notifier.RunBatchFrame` | teamspeaknotifier/notifier.py:137-139 | Over a batch without listings the roster is unchanged. Without `whoami` the identity is unchanged. Logs only grow, by at most one notification per message. |
| `Notifier.ConnectionLostTick` | teamspeaknotifier/notifier.py:140-143 | A lost connection shows exactly "Teamspeak is Unavailable" then "Ready", and sends the two refresh commands. The roster and identity are not reset. |
| `Notifier.TeamspeakNotifier.constructor` | teamspeaknotifier/notifier.py:18-31 | The notifier starts having shown "Starting" then "Ready" and sent the refresh commands, with an empty roster and no identity. |
| `Notifier.TeamspeakNotifier.UpdateNotification` | teamspeaknotifier/notifier.py:49-56 | The live notification becomes (title, body), with the body "" when omitted, and it is appended to the shown log. |
| `Notifier.TeamspeakNotifier.Connect` | teamspeaknotifier/notifier.py:146-158 | A successful connection shows "Ready" and sends `clientlist`, `whoami`. |
| `Notifier.TeamspeakNotifier.SendClientUpdateCommands` | teamspeaknotifier/notifier.py:85-91 | Appends exactly `clientlist` then `whoami` to the sent log. Nothing else changes. |
| `Notifier.TeamspeakNotifier.UpdateIdentity` | teamspeaknotifier/notifier.py:93-95 | The identity becomes the message's `clid`. A missing `clid` raises KeyError and changes nothing. |
| `Notifier.TeamspeakNotifier.UpdateClientList` | teamspeaknotifier/notifier.py:97-105 | The roster is emptied and refilled entry by entry. The loop ends equal to `Rebuild` of the entries, including the partial roster and the KeyError when an entry lacks a field. Nothing else changes. |
| `Notifier.TeamspeakNotifier.Notify` | teamspeaknotifier/notifier.py:58-83 | The new state and the raised error are exactly `Dispatch` of the old state. |
| `Notifier.TeamspeakNotifier.DispatchBatch` | teamspeaknotifier/notifier.py:137-139 | The `for` loop leaves the state and error of `RunBatch`. Messages are dispatched in arrival order, each with the focus observed for it, and the first exception ends the loop. |
| `Notifier.TeamspeakNotifier.Tick` | teamspeaknotifier/notifier.py:134-143 | One iteration of `main` leaves the state and error of `TickSpec`. A batch is dispatched in order up to the first exception. A loss shows "Teamspeak is Unavailable" and reconnects. |
| `Roster.Rebuild` | teamspeaknotifier/notifier.py:97-104 | Definition, with no contract of its own. It is the rebuild loop of `update_client_list`, the same as in __init__.py:116-123. Both `UpdateClientList` methods are proved equal to it. Its properties are `RebuildFails`, `RebuildKeys`, `RebuildLastWins` and `RebuildStops`. |
| `Roster.RebuildFails` | teamspeaknotifier/notifier.py:103-104 | The rebuild raises exactly when some entry lacks `clid` or `client_nickname`. |
| `Roster.RebuildKeys` | teamspeaknotifier/notifier.py:97-104 | For a well-formed listing, the new roster's key set is exactly the set of listed `clid`s. Old keys not listed are gone. |
| `Roster.RebuildLastWins` | teamspeaknotifier/notifier.py:103-104 | An entry that no later entry overrides gives its nickname to its `clid`. On duplicated `clid`s the last entry wins. |
| `Roster.RebuildStops` | teamspeaknotifier/notifier.py:103-104 | The first entry lacking a field stops the rebuild. The roster then holds what the earlier entries give, and KeyError names `client_nickname` when that is missing, else `clid`. |
| `PyStr.Title` | teamspeaknotifier/notifier.py:81 | Definition, with no contract of its own. It is `str.title()` on ASCII. Its properties are `TitleAt` and `TitleIdempotent`. |
| `PyStr.TitleAt` | teamspeaknotifier/notifier.py:81 | `status.title()` keeps the length. It upper-cases exactly the characters that start a word (first, or after an uncased character) and lower-cases the rest. |
| `PyStr.TitleIdempotent` | teamspeaknotifier/notifier.py:81 | `title()` applied twice is `title()` applied once. |
| `PyStr.Decimal` | teamspeaknotifier/__init__.py:187 | `str(n)` gives a non-empty string of digits with no leading zero, except for "0" itself. |
| `PyStr.DecimalRoundTrip` | teamspeaknotifier/__init__.py:187 | The numeral `str(n)` denotes `n`. |
| `PyStr.Join` | teamspeaknotifier/__init__.py:187 | Definition, with no contract of its own. It is `sep.join(parts)`. Its properties are `SplitJoin` and, for the version string, `PackageInit.GetVersion`. |
| `PyStr.SplitJoin` | teamspeaknotifier/__init__.py:187 | Splitting `sep.join(parts)` on `sep` gives back `parts` when no part contains the separator. |
| `PackageInit.VersionParts` | teamspeaknotifier/__init__.py:187 | One numeral per version number, in order, each `str(bit)` of its number: "1", "0", "2". |
| `PackageInit.GetVersion` | teamspeaknotifier/__init__.py:186-187 | The version string is "1.0.2". |
| `PackageInit.VersionRoundTrip` | teamspeaknotifier/__init__.py:186-187 | The dot-separated pieces of the version string are numerals, one per version number, and denote (1, 0, 2) in order. |
| `PackageInit.Dispatch` | teamspeaknotifier/__init__.py:81-102 | Definition, with no contract of its own. It is this version's `notify`. `TeamspeakNotifier.Notify` is proved equal to it. Its properties are `FocusedIsQuiet`, `Attribution`, `TextMessageShown`, `TalkStatusShown`, `OtherTags` and `DispatchFrame`. |
| `PackageInit.RunBatch` | teamspeaknotifier/__init__.py:141-143 | Definition, with no contract of its own. It is this version's `for` loop. `TeamspeakNotifier.DispatchBatch` is proved equal to it. Its properties are `RunBatchAppend` and `FocusedBatchIsQuiet`. |
| `PackageInit.TickSpec` | teamspeaknotifier/__init__.py:138-147 | Definition, with no contract of its own. It is one iteration of this version's `main`. `TeamspeakNotifier.Tick` is proved equal to it. Its properties are `ConnectionLostTick` and the `RunBatch` lemmas. |
| `PackageInit.MessageIsMine` | teamspeaknotifier/__init__.py:126-127 | The result is true exactly when `clid` equals the identity. A message without `clid` raises KeyError("clid"). |
| `PackageInit.NameForMessage` | teamspeaknotifier/__init__.py:129-133 | The roster nickname for `clid`. A missing `clid` or a roster miss gives "Somebody". |
| `PackageInit.AgreesWithNotifierOnClid` | teamspeaknotifier/__init__.py:126-133 | When the message carries `clid`, both lookups agree with those of `notifier.py`. |
| `PackageInit.FocusedIsQuiet` | teamspeaknotifier/__init__.py:82-91 | A text or talk-status message while focused changes nothing and raises nothing, even without `clid`. |
| `PackageInit.Attribution` | teamspeaknotifier/__init__.py:83-86 | Unfocused, a text or talk-status message without `clid` raises KeyError("clid"). One whose `clid` is the identity changes nothing. |
| `PackageInit.TextMessageShown` | teamspeaknotifier/__init__.py:82-84 | An unfocused text message from someone else shows "<invokername> said" with `msg` as body, never with a private-message suffix. A missing field raises KeyError. |
| `PackageInit.TalkStatusShown` | teamspeaknotifier/__init__.py:85-91 | Status "1" shows "<roster name or Somebody> is talking...". Another status shows nothing. A missing status raises KeyError. |
| `PackageInit.OtherTags` | teamspeaknotifier/__init__.py:92-102 | Membership changes send `clientlist` then `whoami`. `whoami` sets the identity. A listing replaces the roster. A connection-status change is always shown. Other tags are ignored. |
| `PackageInit.DispatchFrame` | teamspeaknotifier/__init__.py:81-102 | Only a listing writes the roster, and only `whoami` writes the identity. At most one notification per message. Logs only grow. |
| `PackageInit.RunBatchAppend` | teamspeaknotifier/__init__.py:141-143 | Messages are dispatched in arrival order, and an exception ends the batch. |
| `PackageInit.FocusedBatchIsQuiet` | teamspeaknotifier/__init__.py:141-143 | While focused, a batch of text and talk-status messages changes nothing. |
| `PackageInit.ConnectionLostTick` | teamspeaknotifier/__init__.py:144-147 | A loss shows "Teamspeak is Unavailable" then "Ready", sends the refresh commands, and keeps the roster and identity. |
| `PackageInit.TeamspeakNotifier.constructor` | teamspeaknotifier/__init__.py:41-54 | Starts having shown "Starting" and "Ready" and sent the refresh commands, with an empty roster and no identity. |
| `PackageInit.TeamspeakNotifier.UpdateNotification` | teamspeaknotifier/__init__.py:72-79 | The live notification becomes (title, body) and is appended to the shown log. |
| `PackageInit.TeamspeakNotifier.Connect` | teamspeaknotifier/__init__.py:150-162 | A successful connection shows "Ready" and sends the refresh commands. |
| `PackageInit.TeamspeakNotifier.SendClientUpdateCommands` | teamspeaknotifier/__init__.py:104-110 | Appends `clientlist` then `whoami` to the sent log. |
| `PackageInit.TeamspeakNotifier.UpdateIdentity` | teamspeaknotifier/__init__.py:112-114 | The identity becomes `clid`, or KeyError when it is missing. |
| `PackageInit.TeamspeakNotifier.UpdateClientList` | teamspeaknotifier/__init__.py:116-124 | The roster is rebuilt in place to `Rebuild` of the entries, with the same partial-roster behaviour on a bad entry. |
| `PackageInit.TeamspeakNotifier.Notify` | teamspeaknotifier/__init__.py:81-102 | The new state and the raised error are exactly `Dispatch` of the old state. |
| `PackageInit.TeamspeakNotifier.DispatchBatch` | teamspeaknotifier/__init__.py:141-143 | The `for` loop leaves the state and error of `RunBatch`, dispatching in arrival order up to the first exception. |
| `PackageInit.TeamspeakNotifier.Tick` | teamspeaknotifier/__init__.py:138-147 | One iteration of `main` leaves the state and error of `TickSpec`. |
| `NotifyScript.Notify` | teamspeak_notify.py:61-67 | A text message shows "<invokername> said" with `msg`. A talk-status change with status "1" shows "Somebody is talking..." without consulting any roster. Another status or any other command shows nothing. A missing field raises KeyError. |
| `NotifyScript.Filtered` | teamspeak_notify.py:74-75 | Definition, with no contract of its own. A message reaches `notify` only when the focused window is not "TeamSpeak 3". Its property is `FocusedBatchIsQuiet`. |
| `NotifyScript.RunBatch` | teamspeak_notify.py:72-75 | Definition, with no contract of its own. It is the script's `for` loop. `Tick` is proved to follow it. Its properties are `RunBatchAppend`, `RunBatchShowsEach` and `FocusedBatchIsQuiet`. |
| `NotifyScript.TickSpec` | teamspeak_notify.py:69-78 | Definition, with no contract of its own. It is one iteration of the script's `main`. `Tick` is proved equal to it. |
| `NotifyScript.Tick` | teamspeak_notify.py:69-78 | The notifications one iteration of `main` shows, and the error ending it, are `TickSpec`. Each message is filtered on the focused window before `notify`. EOFError reconnects silently. |
| `NotifyScript.RunBatchAppend` | teamspeak_notify.py:72-75 | A batch split in two shows the first part's notifications, then the second's, unless the first part raised. |
| `NotifyScript.RunBatchShowsEach` | teamspeak_notify.py:72-75 | When nothing raises, a batch shows exactly what each message shows on its own, in arrival order. No state carries over between messages. |
| `NotifyScript.FocusedBatchIsQuiet` | teamspeak_notify.py:33-75 | While the focused window is titled "TeamSpeak 3", nothing in the batch is shown and nothing raises. |

## Left out

- `get_active_window_title` (all three files) runs `xprop` and parses its
  output. It is replaced by the observed window title given with each
  message. Its failure when no line matches (an unbound local) is not
  modelled.
- The retry loops of `connect` and `main`, `time.sleep`, and the blanket
  exception handler in `connect` are left out. A reconnect is one successful
  attempt. In the package versions it shows "Ready" and sends the refresh
  commands. In the script it shows nothing. Failed attempts and the unending
  loops are not modelled.
- `pynotify` initialisation and display: a notification is a (title, body)
  pair appended to a log. When the script's `update` is called without a
  body, the body is modelled as "".
- The script's constructor, which shows a "Ready" notification and connects,
  is not modelled. Its tick model starts from an empty log.
- `logging` calls, `run_from_cmdline` (option parsing, logging setup) and
  `setup.py` (packaging) are thin wrappers with no dispatch behaviour.
- The construction of `teamspeak3.Client`, `subscribe` and `Command` belong
  to the protocol library. A command is recorded by its name.
- `PyStr.TitleAt`: `str.title()` is modelled on ASCII only. Other characters
  are treated as uncased and left unchanged, so Unicode casing is not
  captured.
