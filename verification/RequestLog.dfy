/**
 Attributing logged model requests to user turns (ui/server/pilotdeck-bridge.js, `_assignByModelCallCount`):
 one pass with two counters, shown to cut the log at the prefix sums of the turns' model-call counts.
 */
module RequestLog {
  import opened Options
  import Text

  datatype Turn = Turn(tools: seq<seq<string>>, modelCalls: nat)

  datatype Line = Line(role: string, tier: Option<string>, query: Option<string>)

  class Entry {
    var role: string
    var tier: Option<string>
    var query: Option<string>

    function Value(): Line
      reads this
    {
      Line(role, tier, query)
    }

    method Head(userQuery: string)
      modifies this
      ensures Value() == old(Value()).(query := Some(userQuery))
    {
      query := Some(userQuery);
    }

    method Continue(tools: seq<seq<string>>, continuation: nat)
      modifies this
      ensures Value() == Line("sub", None,
        if continuation < |tools| then Some(ToolNames(tools[continuation])) else old(query))
    {
      role, tier := "sub", None;
      if continuation < |tools| {
        query := Some(ToolNames(tools[continuation]));
      }
    }
  }

  /** How many turns at the front made model calls; the first other turn, or the end, takes all further entries. */
  function Counted(turns: seq<Turn>): (n: nat)
    ensures n <= |turns|
    ensures forall t :: 0 <= t < n ==> turns[t].modelCalls > 0
    ensures n < |turns| ==> turns[n].modelCalls == 0
  {
    if turns == [] || turns[0].modelCalls == 0 then 0 else 1 + Counted(turns[1..])
  }

  /** The position at which turn `t` starts: the sum of the counts before it. */
  function Start(turns: seq<Turn>, t: nat): nat
    requires t <= |turns|
  {
    if t == 0 then 0 else Start(turns, t - 1) + turns[t - 1].modelCalls
  }

  predicate InTurn(turns: seq<Turn>, t: nat, i: nat) {
    t <= Counted(turns) && Start(turns, t) <= i && (t < Counted(turns) ==> i < Start(turns, t + 1))
  }

  lemma {:induction false} StartGrows(turns: seq<Turn>, t: nat, u: nat)
    requires t < u <= Counted(turns)
    ensures Start(turns, t) < Start(turns, u)
  {
    if t < u - 1 {
      StartGrows(turns, t, u - 1);
    }
  }

  /** The turns partition the log: every position is in exactly one turn. */
  lemma {:induction false} TurnExists(turns: seq<Turn>, i: nat) returns (t: nat)
    ensures InTurn(turns, t, i)
    ensures forall u :: InTurn(turns, u, i) ==> u == t
  {
    t := 0;
    while t < Counted(turns) && Start(turns, t + 1) <= i
      invariant t <= Counted(turns) && Start(turns, t) <= i
    {
      t := t + 1;
    }
    forall u: nat | InTurn(turns, u, i)
      ensures u == t
    {
      if u < t {
        if u + 1 < t { StartGrows(turns, u + 1, t); }
      } else if t < u {
        if t + 1 < u { StartGrows(turns, t + 1, u); }
      }
    }
  }

  /** A position heads its turn iff it is one of the prefix sums. */
  lemma HeadsAreSums(turns: seq<Turn>, t: nat, i: nat)
    requires InTurn(turns, t, i)
    ensures i == Start(turns, t) <==> exists u: nat :: u <= Counted(turns) && Start(turns, u) == i
  {
    forall u: nat | u <= Counted(turns) && Start(turns, u) == i
      ensures u == t
    {
      if u < t {
        StartGrows(turns, u, t);
      } else if t < u {
        if t + 1 < u { StartGrows(turns, t + 1, u); }
      }
    }
  }

  /** From the first turn without model calls on there is a single turn. */
  lemma LastTurnTakesAll(turns: seq<Turn>, i: nat)
    ensures InTurn(turns, Counted(turns), i) <==> Start(turns, Counted(turns)) <= i
  {
  }

  function ToolNames(names: seq<string>): string { "→ " + Text.Join(Text.Unique(names), ", ") }

  /** What the entry at place `pos` of turn `t` becomes. */
  function Labelled(queries: seq<string>, turns: seq<Turn>, t: nat, pos: nat, line: Line): Line
    requires queries != []
  {
    if pos == 0 then line.(query := Some(queries[if t < |queries| then t else |queries| - 1]))
    else if t < |turns| && pos - 1 < |turns[t].tools| then
      Line("sub", None, Some(ToolNames(turns[t].tools[pos - 1])))
    else Line("sub", None, line.query)
  }

  /** The two counters of the pass, before the entry at `i`. */
  ghost predicate Counters(turns: seq<Turn>, t: nat, pos: nat, i: nat) {
    && t <= Counted(turns) && Start(turns, t) + pos == i
    && (t < Counted(turns) ==> pos < turns[t].modelCalls)
  }

  lemma CountersStart(turns: seq<Turn>)
    ensures Counters(turns, 0, 0, 0)
  {
  }

  lemma CountersAdvance(turns: seq<Turn>, t: nat, pos: nat, i: nat)
    requires Counters(turns, t, pos, i)
    ensures if t < |turns| && turns[t].modelCalls > 0 && pos + 1 >= turns[t].modelCalls
      then Counters(turns, t + 1, 0, i + 1)
      else Counters(turns, t, pos + 1, i + 1)
  {
    CountersPlace(turns, t, pos, i);
    hide Start, Counted, InTurn;
  }

  /** What the two counters of the pass say about the entry at `i`. */
  lemma CountersPlace(turns: seq<Turn>, t: nat, pos: nat, i: nat)
    requires Counters(turns, t, pos, i)
    ensures forall u :: InTurn(turns, u, i) <==> u == t
    ensures t < Counted(turns) <==> t < |turns| && turns[t].modelCalls > 0
    ensures t < Counted(turns) ==>
      Start(turns, t + 1) == Start(turns, t) + turns[t].modelCalls
      && (t + 1 < Counted(turns) ==> turns[t + 1].modelCalls > 0)
  {
    var u := TurnExists(turns, i);
    assert InTurn(turns, t, i);
  }

  lemma PlaceIs(turns: seq<Turn>, t: nat, pos: nat, i: nat)
    requires Counters(turns, t, pos, i)
    ensures forall u: nat :: InTurn(turns, u, i) ==> u == t && u <= |turns| && i - Start(turns, u) == pos
  {
    CountersPlace(turns, t, pos, i);
    hide Counted, InTurn, Start;
  }

  /** The entry holds what its place in its turn makes of the line it held before. */
  ghost predicate Attributed(entry: Entry, queries: seq<string>, turns: seq<Turn>, i: nat, was: Line)
    requires queries != []
    reads entry
  {
    forall t: nat :: InTurn(turns, t, i) ==>
      entry.Value() == Labelled(queries, turns, t, i - Start(turns, t), was)
  }

  method Attribute(entry: Entry, queries: seq<string>, turns: seq<Turn>, t: nat, pos: nat, ghost i: nat)
    requires queries != []
    requires Counters(turns, t, pos, i)
    modifies entry
    ensures Attributed(entry, queries, turns, i, old(entry.Value()))
  {
    hide Start, Counted, InTurn, Counters, ToolNames;
    PlaceIs(turns, t, pos, i);
    if pos == 0 {
      var last := |queries| - 1;
      entry.Head(queries[if t < last then t else last]);
    } else {
      var tools := if t < |turns| then turns[t].tools else [];
      entry.Continue(tools, pos - 1);
    }
    assert entry.Value() == Labelled(queries, turns, t, pos, old(entry.Value()));
    hide Labelled;
  }

  /** Every entry is labelled by its place in its turn, and by nothing else. */
  method AssignByModelCallCount(entries: seq<Entry>, queries: seq<string>, turns: seq<Turn>)
    requires queries != []
    requires forall i, j :: 0 <= i < j < |entries| ==> entries[i] != entries[j]
    modifies entries
    ensures forall i :: 0 <= i < |entries| ==>
      Attributed(entries[i], queries, turns, i, old(entries[i].Value()))
  {
    var turnIndex: nat, posInTurn: nat := 0, 0;
    hide *;
    CountersStart(turns);
    for i := 0 to |entries|
      invariant Counters(turns, turnIndex, posInTurn, i)
      invariant forall k :: 0 <= k < i ==> Attributed(entries[k], queries, turns, k, old(entries[k].Value()))
      invariant forall k :: i <= k < |entries| ==> entries[k].Value() == old(entries[k].Value())
    {
      var modelCalls := if turnIndex < |turns| then turns[turnIndex].modelCalls else 0;
      CountersAdvance(turns, turnIndex, posInTurn, i);
      Attribute(entries[i], queries, turns, turnIndex, posInTurn, i);
      posInTurn := posInTurn + 1;
      if modelCalls > 0 && posInTurn >= modelCalls {
        turnIndex, posInTurn := turnIndex + 1, 0;
      }
    }
  }

  // ---- What an entry says

  /** The names without repetitions, each at its first place, after an arrow. */
  lemma ToolNamesMeaning(names: seq<string>) returns (once: seq<string>)
    ensures ToolNames(names) == "→ " + Text.Join(once, ", ")
    ensures (forall x :: x in once <==> x in names) && forall i, j :: 0 <= i < j < |once| ==> once[i] != once[j]
  {
    Text.UniqueMeaning(names);
    once := Text.Unique(names);
  }

  /**
   The entry at the head of a turn keeps its role and tier and gets the turn's query, the last one if there are too
   few; entry number `pos` after the head is a sub-agent's without tier, and names the tools that call number `pos` of
   the turn used, if there was one.
   */
  lemma LabelMeaning(queries: seq<string>, turns: seq<Turn>, t: nat, pos: nat, line: Line)
    requires queries != []
    ensures var after := Labelled(queries, turns, t, pos, line);
      if pos == 0 then
        && after.role == line.role && after.tier == line.tier
        && exists i ::
             0 <= i < |queries| && after.query == Some(queries[i]) && (i == t || (i == |queries| - 1 && t > i))
      else
        && after.role == "sub" && after.tier == None
        && var called := t < |turns| && 1 <= pos <= |turns[t].tools|;
           after.query == if called then Some(ToolNames(turns[t].tools[pos - 1])) else line.query
  {
    hide ToolNames;
    if pos == 0 {
      var i := if t < |queries| then t else |queries| - 1;
      assert Labelled(queries, turns, t, pos, line).query == Some(queries[i]);
    }
  }
}
