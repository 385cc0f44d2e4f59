/** The in-memory turn log and summary rows, keyed by (tenant, session), and the cross-tier helpers. */
module MemoryStore {
  import opened Wrappers

  datatype Role = UserRole | AssistantRole | SystemRole | ToolRole

  datatype Turn = Turn(id: string, role: Role, content: string)

  datatype Summary = Summary(text: string, lastApplied: Option<string>, version: nat, sourceModel: Option<string>)

  datatype SessionKey = SessionKey(tenant: string, session: string)

  datatype StoreError = SessionNotFound | VersionMismatch(expected: int, actual: nat)

  // ----- tiers ----------------------------------------------------------

  function VersionOf(s: Option<Summary>): nat {
    if s.Some? then s.value.version else 0
  }

  /** Position of the turn `id`, or |turns| when it is not in the log. */
  function IndexOf(turns: seq<Turn>, id: string): (i: nat)
    ensures i <= |turns|
    ensures i < |turns| ==> turns[i].id == id
    ensures forall j :: 0 <= j < i ==> turns[j].id != id
  {
    if turns == [] || turns[0].id == id then 0 else 1 + IndexOf(turns[1..], id)
  }

  /** The turns the summary does not cover; the whole log when its high-water turn is gone. */
  function TurnsAfter(turns: seq<Turn>, summary: Option<Summary>): seq<Turn> {
    if summary.None? || summary.value.lastApplied.None? then turns
    else
      var i := IndexOf(turns, summary.value.lastApplied.value);
      if i < |turns| then turns[i + 1..] else turns
  }

  /** At most `cap` of the latest turns, when a positive cap is given. */
  function Capped(turns: seq<Turn>, cap: Option<int>): seq<Turn> {
    if cap.Some? && cap.value > 0 && |turns| > cap.value then turns[|turns| - cap.value..] else turns
  }

  /** `None` stands for the ValueError a threshold below 1 raises. */
  function NeedsRefresh(behind: nat, threshold: int): Option<bool> {
    if threshold <= 0 then None else Some(behind >= threshold)
  }

  // ----- compare-and-set ------------------------------------------------

  /** Without an expected version the write is unconditional. */
  function Upsert(existing: Option<Summary>, text: string, lastApplied: Option<string>, model: Option<string>,
                  expected: Option<int>): Result<Summary, StoreError>
  {
    if expected.Some? && expected.value != VersionOf(existing)
    then Err(VersionMismatch(expected.value, VersionOf(existing)))
    else Ok(Summary(text, lastApplied, VersionOf(existing) + 1, model))
  }

  class InMemoryMemoryStore {
    var sessions: set<SessionKey>
    var turns: map<SessionKey, seq<Turn>>
    var summaries: map<SessionKey, Summary>

    /** Logs and summaries belong to sessions that were created. */
    predicate Valid()
      reads this
    {
      turns.Keys <= sessions && summaries.Keys <= sessions
    }

    constructor ()
      ensures Valid()
      ensures sessions == {} && turns == map[] && summaries == map[]
    {
      sessions, turns, summaries := {}, map[], map[];
    }

    function TurnsOf(key: SessionKey): seq<Turn>
      reads this
    {
      if key in turns then turns[key] else []
    }

    function SummaryOf(key: SessionKey): Option<Summary>
      reads this
    {
      if key in summaries then Some(summaries[key]) else None
    }

    /** A new session starts with an empty log and no summary; an existing one keeps both. */
    method GetOrCreateSession(key: SessionKey)
      requires Valid()
      modifies this`sessions
      ensures Valid() && sessions == old(sessions) + {key}
      ensures key !in old(sessions) ==> TurnsOf(key) == [] && SummaryOf(key) == None
      ensures forall k :: TurnsOf(k) == old(TurnsOf(k)) && SummaryOf(k) == old(SummaryOf(k))
    {
      if key !in sessions {
        sessions := sessions + {key};
      }
    }

    /** Appends at the end of this session's log; every other session keeps its log. */
    method AppendTurn(key: SessionKey, turn: Turn) returns (r: Result<Turn, StoreError>)
      requires Valid()
      modifies this`turns
      ensures Valid()
      ensures key !in sessions ==> r == Err(SessionNotFound) && turns == old(turns)
      ensures key in sessions ==> r == Ok(turn) && TurnsOf(key) == old(TurnsOf(key)) + [turn]
      ensures forall k :: k != key ==> TurnsOf(k) == old(TurnsOf(k))
    {
      if key !in sessions {
        return Err(SessionNotFound);
      }
      turns := turns[key := TurnsOf(key) + [turn]];
      return Ok(turn);
    }

    /** The whole log, or its last `limit` turns. */
    method ListTurns(key: SessionKey, limit: Option<int>) returns (r: seq<Turn>)
      ensures limit.None? || limit.value <= 0 ==> r == TurnsOf(key)
      ensures limit.Some? && limit.value > 0 ==>
                |r| == (if limit.value < |TurnsOf(key)| then limit.value else |TurnsOf(key)|) &&
                r == TurnsOf(key)[|TurnsOf(key)| - |r|..]
    {
      var all := TurnsOf(key);
      if limit.None? || limit.value <= 0 || limit.value >= |all| {
        return all;
      }
      return all[|all| - limit.value..];
    }

    /** One atomic compare-and-set on this session's row; all other rows stay. */
    method UpsertSummary(key: SessionKey, text: string, lastApplied: Option<string>, model: Option<string>,
                         expected: Option<int>) returns (r: Result<Summary, StoreError>)
      requires Valid()
      modifies this`summaries
      ensures Valid()
      ensures key !in sessions ==> r == Err(SessionNotFound) && summaries == old(summaries)
      ensures key in sessions ==> r == Upsert(old(SummaryOf(key)), text, lastApplied, model, expected)
      ensures key in sessions ==> (r.Ok? <==> expected.None? || expected.value == VersionOf(old(SummaryOf(key))))
      ensures r.Ok? ==> r.value == Summary(text, lastApplied, VersionOf(old(SummaryOf(key))) + 1, model)
      ensures key in sessions && r.Err? ==>
                r.error == VersionMismatch(expected.value, VersionOf(old(SummaryOf(key))))
      ensures r.Ok? ==> summaries == old(summaries)[key := r.value]
      ensures r.Err? ==> summaries == old(summaries)
    {
      if key !in sessions {
        return Err(SessionNotFound);
      }
      var current := if key in summaries then summaries[key].version else 0;
      if expected.Some? && expected.value != current {
        return Err(VersionMismatch(expected.value, current));
      }
      var updated := Summary(text, lastApplied, current + 1, model);
      summaries := summaries[key := updated];
      return Ok(updated);
    }

    method ClearSummary(key: SessionKey) returns (removed: bool)
      requires Valid()
      modifies this`summaries
      ensures Valid()
      ensures removed <==> key in old(summaries)
      ensures summaries == old(summaries) - {key}
    {
      removed := key in summaries;
      summaries := summaries - {key};
    }
  }
}
