/** Party bookkeeping in the reducer: new members are appended, then the
    narrator's hit-point reports are applied to allies matched by name. */
module Party {
  import opened Wrappers
  import opened Types

  /** The first report addressed to `name`, if any (`Array.prototype.find`). */
  function UpdateFor(updates: seq<AllyUpdate>, name: string): (r: Option<AllyUpdate>)
    ensures r.None? <==> forall k :: 0 <= k < |updates| ==> updates[k].name != name
    ensures r.Some? ==> r.value.name == name && r.value in updates
    ensures forall k ::
              (0 <= k < |updates| && updates[k].name == name &&
               forall j :: 0 <= j < k ==> updates[j].name != name) ==> r == Some(updates[k])
  {
    if |updates| == 0 then None
    else if updates[0].name == name then Some(updates[0])
    else
      var r := UpdateFor(updates[1..], name);
      assert forall k :: 1 <= k < |updates| ==> updates[k] == updates[1..][k - 1];
      r
  }

  /** The ally with its hp and maxHp taken from the first report naming it. */
  function ApplyUpdate(ally: Ally, updates: seq<AllyUpdate>): Ally {
    match UpdateFor(updates, ally.name)
    case Some(u) => ally.(hp := u.hp, maxHp := u.maxHp)
    case None => ally
  }

  /** Apply the reports to every ally; reports never add allies. */
  function ApplyUpdates(party: seq<Ally>, updates: seq<AllyUpdate>): (r: seq<Ally>)
    ensures |r| == |party|
    ensures forall k :: 0 <= k < |party| ==> r[k].(hp := party[k].hp, maxHp := party[k].maxHp) == party[k]
    ensures forall k :: 0 <= k < |party| && UpdateFor(updates, party[k].name).None? ==> r[k] == party[k]
    ensures forall k :: 0 <= k < |party| && UpdateFor(updates, party[k].name).Some? ==>
              r[k].hp == UpdateFor(updates, party[k].name).value.hp &&
              r[k].maxHp == UpdateFor(updates, party[k].name).value.maxHp
  {
    if |party| == 0 then []
    else [ApplyUpdate(party[0], updates)] + ApplyUpdates(party[1..], updates)
  }

  /** Applying the same reports twice is applying them once: a report
      never renames the ally it matched. */
  lemma {:induction false} ApplyUpdatesIdempotent(party: seq<Ally>, updates: seq<AllyUpdate>)
    ensures ApplyUpdates(ApplyUpdates(party, updates), updates) == ApplyUpdates(party, updates)
  {
    if |party| > 0 {
      ApplyUpdatesIdempotent(party[1..], updates);
    }
  }

  /** The reducer's party step: append the new members (no de-duplication),
      then apply the reports to the whole, grown party. */
  function NextParty(party: seq<Ally>, newMembers: Option<seq<Ally>>, updates: Option<seq<AllyUpdate>>): (r: seq<Ally>)
    ensures |r| == |party| + |newMembers.GetOr([])|
    ensures forall k :: 0 <= k < |party| ==> r[k].name == party[k].name && r[k].isPlayer == party[k].isPlayer
    ensures forall k :: 0 <= k < |newMembers.GetOr([])| ==> r[|party| + k].name == newMembers.GetOr([])[k].name
    ensures forall k ::
              (0 <= k < |party| && (updates.None? || UpdateFor(updates.value, party[k].name).None?))
              ==> r[k] == party[k]
    ensures updates.None? ==> r == party + newMembers.GetOr([])
    ensures updates.Some? ==> r == ApplyUpdates(party + newMembers.GetOr([]), updates.value)
  {
    var grown := if newMembers.Some? && |newMembers.value| > 0 then party + newMembers.value else party;
    if updates.Some? then ApplyUpdates(grown, updates.value) else grown
  }
}
