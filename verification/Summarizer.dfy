/** Any number of summarizer workers and turn writers sharing one session; each store call is one atomic step. */
module Summarizer {
  import opened Wrappers
  import opened MemoryStore

  datatype Config = Config(turnThreshold: int, maxRetries: nat, model: string)

  /** `base` is the stored version when the run began, `losses` the version races lost since. */
  datatype Attempt = Attempt(base: nat, losses: nat)

  /** Where one `run_once` stands between two store calls. */
  datatype Worker =
    | Idle
    | HaveCurrent(run: Attempt, current: Option<Summary>)
    | HaveMark(run: Attempt, current: Option<Summary>, mark: Option<Summary>)
    | Ready(run: Attempt, current: Option<Summary>, recent: seq<Turn>)
    | Lost(run: Attempt)

  /** `log` and `summary` are the store. The rest is provenance: `winners[v]` wrote version v + 1,
      and `folded[v]` are the turns the text of version v was made from. */
  datatype System = System(
    log: seq<Turn>,
    summary: Option<Summary>,
    workers: map<nat, Worker>,
    winners: seq<nat>,
    folded: seq<seq<Turn>>)

  const START := System([], None, map[], [], [[]])

  datatype Action =
    | Append(turn: Turn)
    | GetSummary(worker: nat)
    | GetSummaryAgain(worker: nat)
    | ListTurns(worker: nat)
    | Abandon(worker: nat)
    | Publish(worker: nat, text: string)

  function WorkerOf(s: System, w: nat): Worker {
    if w in s.workers then s.workers[w] else Idle
  }

  function SetWorker(s: System, w: nat, state: Worker): System {
    s.(workers := s.workers[w := state])
  }

  /** Turn ids are freshly drawn, so a turn whose id is in the log already cannot be appended. */
  predicate FreshId(log: seq<Turn>, turn: Turn) {
    IndexOf(log, turn.id) == |log|
  }

  /** After listing: stop when too few turns are left or the retries are used up. */
  function AfterListing(cfg: Config, run: Attempt, current: Option<Summary>, recent: seq<Turn>): Worker {
    if NeedsRefresh(|recent|, cfg.turnThreshold) == Some(true) && run.losses < cfg.maxRetries
    then Ready(run, current, recent) else Idle
  }

  /** The compare-and-set at the end of one attempt. */
  function PublishStep(cfg: Config, s: System, w: nat, text: string): System
    requires WorkerOf(s, w).Ready? && WorkerOf(s, w).recent != []
  {
    var Ready(run, current, recent) := WorkerOf(s, w);
    match Upsert(s.summary, text, Some(recent[|recent| - 1].id), Some(cfg.model), Some(VersionOf(current)))
    case Err(_) => SetWorker(s, w, Lost(run.(losses := run.losses + 1)))
    case Ok(updated) =>
      var base := if VersionOf(current) < |s.folded| then s.folded[VersionOf(current)] else [];
      SetWorker(s, w, Idle).(summary := Some(updated), winners := s.winners + [w], folded := s.folded + [base + recent])
  }

  /** One atomic step; an action that is not enabled leaves the system as it is. */
  function Step(cfg: Config, s: System, a: Action): System {
    match a
    case Append(turn) => if FreshId(s.log, turn) then s.(log := s.log + [turn]) else s
    case GetSummary(w) =>
      (match WorkerOf(s, w)
       case Idle => SetWorker(s, w, HaveCurrent(Attempt(VersionOf(s.summary), 0), s.summary))
       case Lost(run) => SetWorker(s, w, HaveCurrent(run, s.summary))
       case _ => s)
    case GetSummaryAgain(w) =>
      (match WorkerOf(s, w)
       case HaveCurrent(run, current) => SetWorker(s, w, HaveMark(run, current, s.summary))
       case _ => s)
    case ListTurns(w) =>
      (match WorkerOf(s, w)
       case HaveMark(run, current, mark) => SetWorker(s, w, AfterListing(cfg, run, current, TurnsAfter(s.log, mark)))
       case _ => s)
    case Abandon(w) => if WorkerOf(s, w).Ready? then SetWorker(s, w, Idle) else s
    case Publish(w, text) =>
      if WorkerOf(s, w).Ready? && WorkerOf(s, w).recent != [] && text != "" then PublishStep(cfg, s, w, text) else s
  }

  function Run(cfg: Config, actions: seq<Action>): System {
    if actions == [] then START
    else Step(cfg, Run(cfg, actions[..|actions| - 1]), actions[|actions| - 1])
  }

  // ----- Invariant ------------------------------------------------------

  ghost predicate UniqueIds(log: seq<Turn>) {
    forall i, j :: 0 <= i < j < |log| ==> log[i].id != log[j].id
  }

  /** A summary row someone read at some time: version v, covering exactly folded[v]. */
  ghost predicate Snapshot(s: System, row: Option<Summary>) {
    && VersionOf(row) < |s.folded|
    && (row.None? <==> VersionOf(row) == 0)
    && (row.Some? ==>
          && s.folded[VersionOf(row)] != []
          && row.value.lastApplied == Some(s.folded[VersionOf(row)][|s.folded[VersionOf(row)]| - 1].id))
  }

  /** `recent` continues the turns of some version not older than `floor`. */
  ghost predicate Continues(s: System, floor: nat, recent: seq<Turn>) {
    recent != [] && exists v :: floor <= v < |s.folded| && s.folded[v] + recent <= s.log
  }

  ghost predicate History(s: System) {
    && UniqueIds(s.log)
    && |s.folded| == |s.winners| + 1
    && s.folded[0] == []
    && (forall v :: 0 <= v < |s.folded| ==> s.folded[v] <= s.log)
    && (forall u, v :: 0 <= u < v < |s.folded| ==> |s.folded[u]| < |s.folded[v]|)
    && VersionOf(s.summary) == |s.winners|
    && Snapshot(s, s.summary)
  }

  ghost predicate RunOk(s: System, w: nat, run: Attempt, reached: nat) {
    && run.base + run.losses <= reached < |s.folded|
    && reached <= |s.winners|
    && w !in s.winners[run.base..]
  }

  ghost predicate WorkerOk(cfg: Config, s: System, w: nat)
    requires |s.folded| == |s.winners| + 1
  {
    match WorkerOf(s, w)
    case Idle => true
    case Lost(run) => RunOk(s, w, run, |s.winners|)
    case HaveCurrent(run, current) => RunOk(s, w, run, VersionOf(current)) && Snapshot(s, current)
    case HaveMark(run, current, mark) =>
      RunOk(s, w, run, VersionOf(current)) && Snapshot(s, current) &&
      Snapshot(s, mark) && VersionOf(current) <= VersionOf(mark)
    case Ready(run, current, recent) =>
      RunOk(s, w, run, VersionOf(current)) && Snapshot(s, current) &&
      Continues(s, VersionOf(current), recent) && run.losses < cfg.maxRetries
  }

  ghost predicate Inv(cfg: Config, s: System) {
    History(s) && forall w :: WorkerOk(cfg, s, w)
  }

  // ----- The log --------------------------------------------------------

  lemma CoveredPrefix(s: System, row: Option<Summary>)
    requires History(s) && Snapshot(s, row)
    ensures s.folded[VersionOf(row)] + TurnsAfter(s.log, row) == s.log
  {
    if row.Some? {
      var done := s.folded[VersionOf(row)];
      var last := |done| - 1;
      assert done <= s.log;
      assert s.log[last] == done[last];
      assert IndexOf(s.log, done[last].id) == last;
    }
  }

  // ----- One step -------------------------------------------------------

  lemma AppendKeepsWorker(cfg: Config, s: System, turn: Turn, w: nat)
    requires |s.folded| == |s.winners| + 1 && WorkerOk(cfg, s, w)
    ensures WorkerOk(cfg, s.(log := s.log + [turn]), w)
  {
    var t := s.(log := s.log + [turn]);
    assert WorkerOf(t, w) == WorkerOf(s, w);
    if WorkerOf(s, w).Ready? {
      var recent := WorkerOf(s, w).recent;
      var v :| VersionOf(WorkerOf(s, w).current) <= v < |s.folded| && s.folded[v] + recent <= s.log;
      assert t.folded[v] + recent <= t.log;
    }
  }

  lemma AppendKeeps(cfg: Config, s: System, turn: Turn)
    requires Inv(cfg, s) && FreshId(s.log, turn)
    ensures Inv(cfg, s.(log := s.log + [turn]))
  {
    var t := s.(log := s.log + [turn]);
    assert UniqueIds(t.log);
    assert forall v :: 0 <= v < |s.folded| ==> s.folded[v] <= s.log;
    forall w ensures WorkerOk(cfg, t, w) { AppendKeepsWorker(cfg, s, turn, w); }
  }

  lemma WorkerStepKeeps(cfg: Config, s: System, w: nat, state: Worker)
    requires Inv(cfg, s)
    requires WorkerOk(cfg, SetWorker(s, w, state), w)
    ensures Inv(cfg, SetWorker(s, w, state))
  {
    var t := SetWorker(s, w, state);
    forall x ensures WorkerOk(cfg, t, x) {
      if x != w {
        assert WorkerOk(cfg, s, x);
        assert WorkerOf(t, x) == WorkerOf(s, x);
        if WorkerOf(s, x).Ready? {
          assert Continues(t, VersionOf(WorkerOf(s, x).current), WorkerOf(s, x).recent);
        }
      }
    }
  }

  lemma ListedWorkerOk(cfg: Config, s: System, w: nat, state: Worker)
    requires History(s) && WorkerOk(cfg, s, w) && WorkerOf(s, w).HaveMark?
    requires var HaveMark(run, current, mark) := WorkerOf(s, w);
             state == AfterListing(cfg, run, current, TurnsAfter(s.log, mark))
    ensures WorkerOk(cfg, SetWorker(s, w, state), w)
  {
    var HaveMark(run, current, mark) := WorkerOf(s, w);
    var recent, t := TurnsAfter(s.log, mark), SetWorker(s, w, state);
    CoveredPrefix(s, mark);
    if state.Ready? {
      assert t.folded[VersionOf(mark)] + recent <= t.log;
      assert Continues(t, VersionOf(current), recent);
    }
  }

  lemma ListKeeps(cfg: Config, s: System, w: nat)
    requires Inv(cfg, s) && WorkerOf(s, w).HaveMark?
    ensures Inv(cfg, Step(cfg, s, ListTurns(w)))
  {
    var HaveMark(run, current, mark) := WorkerOf(s, w);
    var state := AfterListing(cfg, run, current, TurnsAfter(s.log, mark));
    ListedWorkerOk(cfg, s, w, state);
    WorkerStepKeeps(cfg, s, w, state);
  }

  /** A successful upsert folds exactly the turns between the old and the new high-water mark. */
  lemma PublishExtends(cfg: Config, s: System, w: nat, text: string)
    requires Inv(cfg, s) && WorkerOf(s, w).Ready? && WorkerOf(s, w).recent != []
    requires VersionOf(WorkerOf(s, w).current) == VersionOf(s.summary)
    ensures var t := PublishStep(cfg, s, w, text);
            && t.winners == s.winners + [w]
            && t.folded == s.folded + [s.folded[|s.winners|] + WorkerOf(s, w).recent]
            && s.folded[|s.winners|] + WorkerOf(s, w).recent <= s.log
            && VersionOf(t.summary) == |s.winners| + 1
  {
    assert WorkerOk(cfg, s, w);
    var current, recent := WorkerOf(s, w).current, WorkerOf(s, w).recent;
    var v :| VersionOf(current) <= v < |s.folded| && s.folded[v] + recent <= s.log;
    assert v == |s.winners|;
  }

  lemma SnapshotSurvives(s: System, t: System, row: Option<Summary>)
    requires Snapshot(s, row) && |s.folded| <= |t.folded| && t.folded[..|s.folded|] == s.folded
    ensures Snapshot(t, row)
  {
    assert t.folded[..|s.folded|][VersionOf(row)] == t.folded[VersionOf(row)];
  }

  lemma HistoryGrows(cfg: Config, s: System, w: nat, text: string)
    requires Inv(cfg, s) && WorkerOf(s, w).Ready? && WorkerOf(s, w).recent != []
    requires VersionOf(WorkerOf(s, w).current) == VersionOf(s.summary)
    ensures History(PublishStep(cfg, s, w, text))
  {
    PublishExtends(cfg, s, w, text);
    var t, recent := PublishStep(cfg, s, w, text), WorkerOf(s, w).recent;
    var n := |s.winners|;
    var grown := s.folded[n] + recent;
    assert t.folded[n + 1] == grown;
    assert forall v :: 0 <= v <= n ==> t.folded[v] == s.folded[v] && |s.folded[v]| <= |s.folded[n]|;
    assert grown[|grown| - 1] == recent[|recent| - 1];
  }

  lemma PublishKeeps(cfg: Config, s: System, w: nat, text: string)
    requires Inv(cfg, s) && WorkerOf(s, w).Ready? && WorkerOf(s, w).recent != []
    ensures Inv(cfg, PublishStep(cfg, s, w, text))
  {
    assert WorkerOk(cfg, s, w);
    var Ready(run, current, recent) := WorkerOf(s, w);
    if VersionOf(current) != VersionOf(s.summary) {
      WorkerStepKeeps(cfg, s, w, Lost(run.(losses := run.losses + 1)));
    } else {
      var t := PublishStep(cfg, s, w, text);
      HistoryGrows(cfg, s, w, text);
      PublishExtends(cfg, s, w, text);
      forall x ensures WorkerOk(cfg, t, x) {
        if x != w {
          assert WorkerOk(cfg, s, x);
          OtherWorkerKeeps(cfg, s, t, x);
        }
      }
    }
  }

  /** A worker does not notice that another one published, beyond finding a newer version later. */
  lemma OtherWorkerKeeps(cfg: Config, s: System, t: System, x: nat)
    requires |s.folded| == |s.winners| + 1 && |t.folded| == |t.winners| + 1
    requires WorkerOk(cfg, s, x) && WorkerOf(t, x) == WorkerOf(s, x)
    requires |t.folded| == |s.folded| + 1 && t.folded[..|s.folded|] == s.folded && t.log == s.log
    requires t.winners[..|s.winners|] == s.winners && t.winners[|s.winners|] != x
    ensures WorkerOk(cfg, t, x)
  {
    var state := WorkerOf(s, x);
    if !state.Idle? {
      var b := state.run.base;
      assert t.winners[b..] == s.winners[b..] + [t.winners[|s.winners|]];
      if state.HaveCurrent? || state.HaveMark? || state.Ready? { SnapshotSurvives(s, t, state.current); }
      if state.HaveMark? { SnapshotSurvives(s, t, state.mark); }
      if state.Ready? {
        var v :| VersionOf(state.current) <= v < |s.folded| && s.folded[v] + state.recent <= s.log;
        assert t.folded[v] == t.folded[..|s.folded|][v];
        assert t.folded[v] + state.recent <= t.log;
      }
    }
  }

  lemma StepKeeps(cfg: Config, s: System, a: Action)
    requires Inv(cfg, s)
    ensures Inv(cfg, Step(cfg, s, a))
  {
    match a
    case Append(turn) => if FreshId(s.log, turn) { AppendKeeps(cfg, s, turn); }
    case GetSummary(w) =>
      assert WorkerOk(cfg, s, w);
      if WorkerOf(s, w).Idle? {
        assert s.winners[|s.winners|..] == [];
        WorkerStepKeeps(cfg, s, w, HaveCurrent(Attempt(VersionOf(s.summary), 0), s.summary));
      } else if WorkerOf(s, w).Lost? {
        WorkerStepKeeps(cfg, s, w, HaveCurrent(WorkerOf(s, w).run, s.summary));
      }
    case GetSummaryAgain(w) =>
      assert WorkerOk(cfg, s, w);
      if WorkerOf(s, w).HaveCurrent? {
        WorkerStepKeeps(cfg, s, w, HaveMark(WorkerOf(s, w).run, WorkerOf(s, w).current, s.summary));
      }
    case ListTurns(w) => if WorkerOf(s, w).HaveMark? { ListKeeps(cfg, s, w); }
    case Abandon(w) => if WorkerOf(s, w).Ready? { WorkerStepKeeps(cfg, s, w, Idle); }
    case Publish(w, text) =>
      if WorkerOf(s, w).Ready? && WorkerOf(s, w).recent != [] && text != "" { PublishKeeps(cfg, s, w, text); }
  }

  lemma {:induction false} Reachable(cfg: Config, actions: seq<Action>)
    ensures Inv(cfg, Run(cfg, actions))
  {
    if actions != [] {
      Reachable(cfg, actions[..|actions| - 1]);
      StepKeeps(cfg, Run(cfg, actions[..|actions| - 1]), actions[|actions| - 1]);
    }
  }

  // ----- Main results ---------------------------------------------------

  /** The turns folded into the stored summary. */
  function FoldedNow(s: System): seq<Turn> {
    if VersionOf(s.summary) < |s.folded| then s.folded[VersionOf(s.summary)] else []
  }

  /** In every interleaving the stored summary folds exactly the log prefix ending at its high-water turn,
      each turn once, and the uncovered turns are the rest of the log. */
  lemma SummaryIsExact(cfg: Config, actions: seq<Action>)
    ensures var s := Run(cfg, actions);
            && UniqueIds(s.log)
            && FoldedNow(s) + TurnsAfter(s.log, s.summary) == s.log
            && (s.summary.Some? ==>
                  && s.summary.value.lastApplied.Some?
                  && var n := IndexOf(s.log, s.summary.value.lastApplied.value);
                     n < |s.log| && FoldedNow(s) == s.log[..n + 1])
  {
    Reachable(cfg, actions);
    var s := Run(cfg, actions);
    CoveredPrefix(s, s.summary);
    if s.summary.Some? {
      var done := FoldedNow(s);
      assert s.log[|done| - 1] == done[|done| - 1];
    }
  }

  /** A step either leaves the summary alone or raises the version by one and moves the high-water mark on. */
  lemma SuccessIsProgress(cfg: Config, actions: seq<Action>, a: Action)
    ensures var s := Run(cfg, actions);
            var t := Step(cfg, s, a);
            || t.summary == s.summary
            || (&& VersionOf(t.summary) == VersionOf(s.summary) + 1
                && FoldedNow(s) < FoldedNow(t)
                && a.Publish? && t.winners == s.winners + [a.worker]
                && t.summary.Some? && t.summary.value.text == a.text && a.text != ""
                && t.summary.value.sourceModel == Some(cfg.model))
  {
    Reachable(cfg, actions);
    var s := Run(cfg, actions);
    var t := Step(cfg, s, a);
    if t.summary != s.summary {
      assert WorkerOk(cfg, s, a.worker);
      if VersionOf(WorkerOf(s, a.worker).current) == VersionOf(s.summary) {
        PublishExtends(cfg, s, a.worker, a.text);
      }
    }
  }

  lemma WorkerPaid(cfg: Config, s: System, w: nat)
    requires |s.folded| == |s.winners| + 1 && WorkerOk(cfg, s, w) && !WorkerOf(s, w).Idle?
    ensures var run := WorkerOf(s, w).run;
            run.base + run.losses <= |s.winners| && forall i :: run.base <= i < |s.winners| ==> s.winners[i] != w
  {
    var b := WorkerOf(s, w).run.base;
    forall i | b <= i < |s.winners| ensures s.winners[i] != w {
      assert s.winners[i] == s.winners[b..][i - b];
    }
  }

  /** A run's losses stay within its retries, and below them while it can still publish. */
  predicate WithinRetries(cfg: Config, state: Worker) {
    !state.Idle? ==> state.run.losses <= cfg.maxRetries && (state.Ready? ==> state.run.losses < cfg.maxRetries)
  }

  lemma {:induction false} LossesWithinRetries(cfg: Config, actions: seq<Action>, w: nat)
    ensures WithinRetries(cfg, WorkerOf(Run(cfg, actions), w))
  {
    if actions != [] {
      LossesWithinRetries(cfg, actions[..|actions| - 1], w);
    }
  }

  /** The races worker w lost since it was last idle. */
  function RacesLost(cfg: Config, actions: seq<Action>, w: nat): nat {
    if actions == [] || WorkerOf(Run(cfg, actions), w).Idle? then 0
    else
      var front := actions[..|actions| - 1];
      var raced := WorkerOf(Run(cfg, front), w).Ready? && WorkerOf(Run(cfg, actions), w).Lost?;
      RacesLost(cfg, front, w) + if raced then 1 else 0
  }

  /** A worker counts its lost races, every one and none twice, through all its retries. */
  lemma {:induction false} LossesAreCounted(cfg: Config, actions: seq<Action>, w: nat)
    ensures var state := WorkerOf(Run(cfg, actions), w);
            !state.Idle? ==> state.run.losses == RacesLost(cfg, actions, w)
  {
    if actions != [] {
      var front, a := actions[..|actions| - 1], actions[|actions| - 1];
      LossesAreCounted(cfg, front, w);
      if WorkerOf(Run(cfg, front), w).Idle? { assert RacesLost(cfg, front, w) == 0; }
    }
  }

  /** A run that lost n races saw at least n upserts by others succeed since it began,
      and in every state it has lost no more races than it has retries. */
  lemma LossesArePaidFor(cfg: Config, actions: seq<Action>, w: nat)
    requires var s := Run(cfg, actions); !WorkerOf(s, w).Idle?
    ensures var s := Run(cfg, actions);
            var run := WorkerOf(s, w).run;
            && run.base + run.losses <= |s.winners|
            && (forall i :: run.base <= i < |s.winners| ==> s.winners[i] != w)
            && run.losses <= cfg.maxRetries && (WorkerOf(s, w).Ready? ==> run.losses < cfg.maxRetries)
  {
    Reachable(cfg, actions);
    WorkerPaid(cfg, Run(cfg, actions), w);
    LossesWithinRetries(cfg, actions, w);
  }

  /** Reading the summary, the summary again and then the log, as context assembly does: the first summary and the
      uncovered turns, capped as asked, make up the whole log exactly when no upsert happened between the two summary
      reads and the uncovered turns fit the cap. */
  lemma CoverageIff(cfg: Config, actions: seq<Action>, w: nat, cap: Option<int>)
    requires WorkerOf(Run(cfg, actions), w).HaveMark?
    ensures var s := Run(cfg, actions);
            var HaveMark(_, current, mark) := WorkerOf(s, w);
            var recent := TurnsAfter(s.log, mark);
            && VersionOf(current) < |s.folded|
            && (s.folded[VersionOf(current)] + Capped(recent, cap) == s.log <==>
                VersionOf(current) == VersionOf(mark) && (cap.None? || cap.value <= 0 || |recent| <= cap.value))
  {
    Reachable(cfg, actions);
    var s := Run(cfg, actions);
    assert WorkerOk(cfg, s, w);
    var HaveMark(_, current, mark) := WorkerOf(s, w);
    CoveredPrefix(s, mark);
    if VersionOf(current) < VersionOf(mark) {
      assert |s.folded[VersionOf(current)]| < |s.folded[VersionOf(mark)]|;
    }
  }

  function Appends(turns: seq<Turn>): seq<Action> {
    if turns == [] then [] else Appends(turns[..|turns| - 1]) + [Append(turns[|turns| - 1])]
  }

  lemma {:induction false} AppendsRun(cfg: Config, turns: seq<Turn>)
    requires UniqueIds(turns)
    ensures Run(cfg, Appends(turns)) == System(turns, None, map[], [], [[]])
  {
    if turns != [] {
      var n := |turns| - 1;
      AppendsRun(cfg, turns[..n]);
      RunSnoc(cfg, Appends(turns[..n]), Append(turns[n]));
      assert turns[..n] + [turns[n]] == turns;
      assert FreshId(turns[..n], turns[n]);
    }
  }

  /** One version does not suffice: any log longer than the cap, read without a summary and without any upsert,
      is not covered by what was read. */
  lemma CapLeavesGap(cfg: Config, turns: seq<Turn>, cap: int)
    requires UniqueIds(turns) && 0 < cap < |turns|
    ensures var s := Run(cfg, Appends(turns) + [GetSummary(1), GetSummaryAgain(1)]);
            && s.log == turns && WorkerOf(s, 1) == HaveMark(Attempt(0, 0), None, None)
            && Capped(TurnsAfter(s.log, None), Some(cap)) != s.log
  {
    AppendsRun(cfg, turns);
    RunSnoc(cfg, Appends(turns), GetSummary(1));
    RunSnoc(cfg, Appends(turns) + [GetSummary(1)], GetSummaryAgain(1));
    assert Appends(turns) + [GetSummary(1)] + [GetSummaryAgain(1)] ==
           Appends(turns) + [GetSummary(1), GetSummaryAgain(1)];
  }

  lemma RunSnoc(cfg: Config, actions: seq<Action>, a: Action)
    ensures Run(cfg, actions + [a]) == Step(cfg, Run(cfg, actions), a)
  {
    assert (actions + [a])[..|actions|] == actions;
  }

  lemma RunTake(cfg: Config, actions: seq<Action>, k: nat)
    requires k < |actions|
    ensures Run(cfg, actions[..k + 1]) == Step(cfg, Run(cfg, actions[..k]), actions[k])
  {
    assert actions[..k + 1] == actions[..k] + [actions[k]];
    RunSnoc(cfg, actions[..k], actions[k]);
  }

  /** A turn is appended, worker 1 reads the summary, worker 0 makes a summary, worker 1 reads again. */
  function Straddle(turn: Turn): seq<Action> {
    [Append(turn), GetSummary(1), GetSummary(0), GetSummaryAgain(0), ListTurns(0), Publish(0, "s"), GetSummaryAgain(1)]
  }

  /** Every turn is worth a summary. */
  const ONE := Config(1, 1, "m")

  /** The system after k of these actions. */
  function Straddled(turn: Turn, k: nat): System {
    var run := Attempt(0, 0);
    var row := Some(Summary("s", Some(turn.id), 1, Some("m")));
    var before := System([turn], None, map[1 := HaveCurrent(run, None)], [], [[]]);
    if k == 0 then START
    else if k == 1 then before.(workers := map[])
    else if k == 2 then before
    else if k == 3 then SetWorker(before, 0, HaveCurrent(run, None))
    else if k == 4 then SetWorker(before, 0, HaveMark(run, None, None))
    else if k == 5 then SetWorker(before, 0, Ready(run, None, [turn]))
    else
      var after := SetWorker(before, 0, Idle).(summary := row, winners := [0], folded := [[], [turn]]);
      if k == 6 then after else SetWorker(after, 1, HaveMark(run, None, row))
  }

  lemma StraddleStep(turn: Turn, k: nat)
    requires k < 7
    ensures Step(ONE, Straddled(turn, k), Straddle(turn)[k]) == Straddled(turn, k + 1)
  {
    if k < 5 { StraddleBegins(turn, k); } else { StraddleEnds(turn, k); }
  }

  lemma StraddleBegins(turn: Turn, k: nat)
    requires k < 5
    ensures Step(ONE, Straddled(turn, k), Straddle(turn)[k]) == Straddled(turn, k + 1)
  {
    assert Step(ONE, Straddled(turn, k), Straddle(turn)[k]).workers == Straddled(turn, k + 1).workers;
  }

  lemma StraddleEnds(turn: Turn, k: nat)
    requires 5 <= k < 7
    ensures Step(ONE, Straddled(turn, k), Straddle(turn)[k]) == Straddled(turn, k + 1)
  {
    var s, t := Step(ONE, Straddled(turn, k), Straddle(turn)[k]), Straddled(turn, k + 1);
    if k == 5 { assert [] + [turn] == [turn]; }
    assert s.workers == t.workers && s.folded == t.folded;
  }

  lemma {:induction false} StraddleRuns(turn: Turn, k: nat)
    requires k <= 7
    ensures Run(ONE, Straddle(turn)[..k]) == Straddled(turn, k)
  {
    if k > 0 {
      StraddleRuns(turn, k - 1);
      RunTake(ONE, Straddle(turn), k - 1);
      StraddleStep(turn, k - 1);
    }
  }

  /** An upsert can come between the two reads, and then what worker 1 holds covers nothing of the log. */
  lemma UpsertBetweenReads(turn: Turn)
    ensures var s := Run(ONE, Straddle(turn));
            && s.log == [turn] && s.folded == [[], [turn]] && WorkerOf(s, 1).HaveMark?
            && var HaveMark(_, current, mark) := WorkerOf(s, 1);
               VersionOf(current) == 0 && VersionOf(mark) == 1 && s.folded[0] + TurnsAfter(s.log, mark) != s.log
  {
    StraddleRuns(turn, 7);
    assert Straddle(turn)[..7] == Straddle(turn);
    assert [turn][1..] == [];
  }

  // ----- The threshold ------------------------------------------------------------------------

  /** Having read the log, a worker goes on exactly when the threshold is a real one, at least that many turns are
      uncovered and it has retries left; otherwise it is done without a summary. */
  lemma ThresholdDecides(cfg: Config, s: System, w: nat)
    requires WorkerOf(s, w).HaveMark?
    ensures var HaveMark(run, current, mark) := WorkerOf(s, w);
            var recent, next := TurnsAfter(s.log, mark), WorkerOf(Step(cfg, s, ListTurns(w)), w);
            next == if cfg.turnThreshold >= 1 && |recent| >= cfg.turnThreshold && run.losses < cfg.maxRetries
                    then Ready(run, current, recent) else Idle
  {
  }

  /** Whoever is about to publish holds a threshold's worth of turns. */
  ghost predicate AllHoldEnough(cfg: Config, s: System) {
    forall w :: HoldsEnough(cfg, WorkerOf(s, w))
  }

  predicate HoldsEnough(cfg: Config, state: Worker) {
    state.Ready? ==> 1 <= cfg.turnThreshold <= |state.recent|
  }

  /** Everyone who published did, too. */
  ghost predicate AllGrewEnough(cfg: Config, folded: seq<seq<Turn>>) {
    forall u, v :: 0 <= u < v < |folded| ==> 1 <= cfg.turnThreshold <= |folded[v]| - |folded[u]|
  }

  lemma OneStepHoldsEnough(cfg: Config, s: System, a: Action, w: nat)
    requires HoldsEnough(cfg, WorkerOf(s, w))
    ensures HoldsEnough(cfg, WorkerOf(Step(cfg, s, a), w))
  {
    if a.ListTurns? && WorkerOf(s, a.worker).HaveMark? { ThresholdDecides(cfg, s, a.worker); }
  }

  lemma PublishGrowsEnough(cfg: Config, s: System, w: nat, text: string)
    requires Inv(cfg, s) && WorkerOf(s, w).Ready? && WorkerOf(s, w).recent != [] && HoldsEnough(cfg, WorkerOf(s, w))
    requires AllGrewEnough(cfg, s.folded)
    ensures AllGrewEnough(cfg, PublishStep(cfg, s, w, text).folded)
  {
    var t, recent := PublishStep(cfg, s, w, text), WorkerOf(s, w).recent;
    if VersionOf(WorkerOf(s, w).current) == VersionOf(s.summary) {
      PublishExtends(cfg, s, w, text);
      var n := |s.winners|;
      assert t.folded[n + 1] == s.folded[n] + recent && t.folded[n] == s.folded[n];
      assert forall v :: 0 <= v <= n ==> t.folded[v] == s.folded[v] && |s.folded[v]| <= |s.folded[n]|;
    }
  }

  lemma {:induction false} RunIsWorthwhile(cfg: Config, actions: seq<Action>)
    ensures AllHoldEnough(cfg, Run(cfg, actions)) && AllGrewEnough(cfg, Run(cfg, actions).folded)
  {
    if actions != [] {
      var s, a := Run(cfg, actions[..|actions| - 1]), actions[|actions| - 1];
      RunIsWorthwhile(cfg, actions[..|actions| - 1]);
      Reachable(cfg, actions[..|actions| - 1]);
      forall w ensures HoldsEnough(cfg, WorkerOf(Step(cfg, s, a), w)) { OneStepHoldsEnough(cfg, s, a, w); }
      if a.Publish? && WorkerOf(s, a.worker).Ready? && WorkerOf(s, a.worker).recent != [] {
        assert HoldsEnough(cfg, WorkerOf(s, a.worker));
        PublishGrowsEnough(cfg, s, a.worker, a.text);
      }
    }
  }

  /** In every run, each version of the summary folds in at least a threshold's worth of turns more than the one before
      it; with a threshold below 1 there never is a summary. */
  lemma VersionsAreWorthwhile(cfg: Config, actions: seq<Action>, v: nat)
    ensures var s := Run(cfg, actions);
            && (v + 1 < |s.folded| ==> |s.folded[v + 1]| >= |s.folded[v]| + cfg.turnThreshold)
            && (cfg.turnThreshold < 1 ==> s.folded == [[]] && s.summary == None)
  {
    var s := Run(cfg, actions);
    RunIsWorthwhile(cfg, actions);
    Reachable(cfg, actions);
    assert |s.folded| > 1 ==> 1 <= cfg.turnThreshold <= |s.folded[1]| - |s.folded[0]|;
    if cfg.turnThreshold < 1 { assert s.folded == [s.folded[0]]; }
  }

  /** A race is lost only when the stored version moved on after this worker read it. */
  lemma LossMeansNewer(cfg: Config, actions: seq<Action>, w: nat, text: string)
    requires var s := Run(cfg, actions); WorkerOf(s, w).Ready?
    ensures var s := Run(cfg, actions);
            var t := Step(cfg, s, Publish(w, text));
            WorkerOf(t, w).Lost? <==> text != "" && VersionOf(WorkerOf(s, w).current) < VersionOf(s.summary)
  {
    Reachable(cfg, actions);
    assert WorkerOk(cfg, Run(cfg, actions), w);
  }
}
