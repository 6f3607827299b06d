/** The roster rebuild of `update_client_list`, which both package versions
    of the notifier share: the roster is emptied, then every entry of the
    listing, in order, maps its `clid` to its `client_nickname`. */
module Roster {
  import opened Protocol

  /** An entry that carries both fields the rebuild reads. */
  predicate IsEntry(e: Fields)
  {
    "clid" in e && "client_nickname" in e
  }

  /** A listing every entry of which carries both fields. */
  predicate WellFormed(es: seq<Fields>)
  {
    forall j :: 0 <= j < |es| ==> IsEntry(es[j])
  }

  /** What the rebuild leaves in the roster, and the KeyError that stopped
      it, if any. */
  datatype Rebuilt = Rebuilt(roster: map<string, string>, error: Option<Error>)

  /** The rebuild over `es` from an empty roster. The first entry that lacks a
      field raises KeyError and leaves the roster built from the entries
      before it. The assignment evaluates `client_nickname` before `clid`,
      so an entry lacking both reports `client_nickname`. */
  function Rebuild(es: seq<Fields>): Rebuilt
  {
    if es == [] then Rebuilt(map[], None)
    else
      var before := Rebuild(es[..|es| - 1]);
      var e := es[|es| - 1];
      if before.error.Some? then before
      else if "client_nickname" !in e then Rebuilt(before.roster, Some(KeyError("client_nickname")))
      else if "clid" !in e then Rebuilt(before.roster, Some(KeyError("clid")))
      else Rebuilt(before.roster[e["clid"] := e["client_nickname"]], None)
  }

  /** The rebuild raises exactly when some entry lacks a field. */
  lemma {:induction false} RebuildFails(es: seq<Fields>)
    ensures Rebuild(es).error.None? <==> WellFormed(es)
  {
    if es != [] {
      var init := es[..|es| - 1];
      RebuildFails(init);
      assert forall i :: 0 <= i < |init| ==> init[i] == es[i];
    }
  }

  /** When the listing is well formed, the key set of the new roster is
      exactly the set of `clid`s it carries. */
  lemma {:induction false} RebuildKeys(es: seq<Fields>)
    requires WellFormed(es)
    ensures Rebuild(es).roster.Keys == set i | 0 <= i < |es| :: es[i]["clid"]
  {
    if es != [] {
      var init := es[..|es| - 1];
      assert forall i :: 0 <= i < |init| ==> init[i] == es[i];
      RebuildKeys(init);
      RebuildFails(init);
      var e := es[|es| - 1];
      assert (set i | 0 <= i < |es| :: es[i]["clid"]) ==
             (set i | 0 <= i < |init| :: init[i]["clid"]) + {e["clid"]};
    }
  }

  /** An entry that no later entry of the listing overrides gives its
      nickname to its `clid`: on a duplicated `clid` the last entry wins. */
  lemma {:induction false} RebuildLastWins(es: seq<Fields>, i: nat)
    requires WellFormed(es)
    requires i < |es|
    requires forall j :: i < j < |es| ==> es[j]["clid"] != es[i]["clid"]
    ensures es[i]["clid"] in Rebuild(es).roster
    ensures Rebuild(es).roster[es[i]["clid"]] == es[i]["client_nickname"]
  {
    var init := es[..|es| - 1];
    assert forall j :: 0 <= j < |init| ==> init[j] == es[j];
    RebuildFails(init);
    if i < |es| - 1 {
      RebuildLastWins(init, i);
    }
  }

  /** An entry lacking a field stops the rebuild there: the roster holds
      what the entries before it give, and KeyError names the missing field. */
  lemma {:induction false} RebuildStops(es: seq<Fields>, i: nat)
    requires i < |es| && !IsEntry(es[i])
    requires WellFormed(es[..i])
    ensures Rebuild(es).roster == Rebuild(es[..i]).roster
    ensures Rebuild(es).error ==
      Some(KeyError(if "client_nickname" !in es[i] then "client_nickname" else "clid"))
  {
    if i < |es| - 1 {
      var init := es[..|es| - 1];
      assert init[..i] == es[..i];
      RebuildStops(init, i);
    } else {
      RebuildFails(es[..i]);
    }
  }

  /** The step the rebuild's loop takes on an entry lacking a field. */
  lemma RebuildAppendFailed(es: seq<Fields>, i: nat)
    requires i < |es| && !IsEntry(es[i])
    requires Rebuild(es[..i]).error.None?
    ensures Rebuild(es) == Rebuilt(Rebuild(es[..i]).roster,
      Some(KeyError(if "client_nickname" !in es[i] then "client_nickname" else "clid")))
  {
    RebuildFails(es[..i]);
    RebuildStops(es, i);
  }
}
