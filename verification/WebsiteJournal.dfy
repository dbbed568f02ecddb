/**
 Website updates on one shared runtime (internal/agent/caddy_site_store.go:164-277).

 A row is rewritten before and after every load of the runtime. `Answer` is the site an
 application is committed to: what a restore would leave it with. An update moves the
 answer of one application from its old site to the new one, at once, or not at all.
 */
module WebsiteJournal {
  import opened Prelude
  import CaddySites

  type Site = CaddySites.Site

  datatype Phase = Applied | Applying | Recovering

  datatype Row = Row(phase: Phase, site: Option<Site>, previous: Option<Site>)

  type Rows = map<string, Row>

  type Loaded = map<string, Site>

  function SiteOf(rows: Rows, id: string): Option<Site> {
    if id in rows then rows[id].site else None
  }

  function Shown(loaded: Loaded, id: string): Option<Site> {
    if id in loaded then Some(loaded[id]) else None
  }

  /** SharedCaddySites: what the next load would serve. */
  function Live(rows: Rows): Loaded {
    map id | id in rows && rows[id].site.Some? :: rows[id].site.value
  }

  predicate Quiet(rows: Rows, id: string) {
    id in rows ==> rows[id].phase.Applied?
  }

  ghost predicate Settled(rows: Rows) {
    forall id :: id in rows ==> Quiet(rows, id)
  }

  function Answer(rows: Rows, id: string): Option<Site> {
    if id !in rows then None else if rows[id].phase.Applying? then rows[id].previous else rows[id].site
  }

  predicate OwnedBy(id: string, site: Option<Site>) {
    site.Some? ==> site.value.id == id && CaddySites.Valid(site.value)
  }

  /**
   The invariant: every row belongs to its application, at most one update is unfinished,
   and the runtime serves every other application exactly as recorded.
   */
  ghost predicate Ledger(rows: Rows, loaded: Loaded) {
    && (forall id :: id in rows ==> OwnedBy(id, rows[id].site) && OwnedBy(id, rows[id].previous))
    && (forall i, j :: i in rows && j in rows && !Quiet(rows, i) && !Quiet(rows, j) ==> i == j)
    && (forall id :: Quiet(rows, id) ==> Shown(loaded, id) == SiteOf(rows, id))
  }

  /** With no update unfinished the runtime serves exactly the recorded sites. */
  lemma AllQuiet(rows: Rows, loaded: Loaded)
    requires Ledger(rows, loaded) && Settled(rows)
    ensures loaded == Live(rows)
  {
    forall id ensures id in loaded <==> id in Live(rows) {
      assert Quiet(rows, id);
      assert Shown(loaded, id) == SiteOf(rows, id);
    }
    forall id | id in loaded ensures loaded[id] == Live(rows)[id] {
      assert Quiet(rows, id);
      assert Shown(loaded, id) == SiteOf(rows, id);
    }
  }

  ghost predicate SameSites(before: Rows, after: Rows) {
    forall id :: id in after ==> SiteOf(after, id) == SiteOf(before, id)
  }

  /** The rows of all other applications are the same. */
  ghost predicate Elsewhere(before: Rows, after: Rows, id: string) {
    && (forall other :: other in before && other != id ==> other in after && after[other] == before[other])
    && (forall other :: other in after && other != id ==> other in before)
  }

  class Journal {
    var rows: Rows
    var loaded: Loaded

    ghost predicate Valid()
      reads this
    {
      Ledger(rows, loaded)
    }

    constructor ()
      ensures Valid() && rows == map[] && loaded == map[]
    {
      rows, loaded := map[], map[];
    }

    method Save(id: string, row: Row, o: Outcome) returns (v: Verdict)
      modifies this`rows
      ensures v == Ending(o)
      ensures rows == if Took(o) then old(rows)[id := row] else old(rows)
    {
      if Took(o) {
        rows := rows[id := row];
      }
      return Ending(o);
    }

    /** A complete load serves every recorded site, finished or not. */
    method Reload(o: Outcome) returns (v: Verdict)
      requires Valid()
      modifies this`loaded
      ensures Valid() && v == Ending(o)
      ensures loaded == if Took(o) then Live(rows) else old(loaded)
    {
      if Took(o) {
        loaded := Live(rows);
      }
      return Ending(o);
    }

    method AnyInterrupted() returns (found: bool)
      ensures found <==> exists id :: id in rows && !Quiet(rows, id)
    {
      var todo := rows.Keys;
      while todo != {}
        invariant todo <= rows.Keys
        invariant forall id :: id in rows && id !in todo ==> Quiet(rows, id)
      {
        var id :| id in todo;
        if !rows[id].phase.Applied? {
          return true;
        }
        todo := todo - {id};
      }
      return false;
    }

    /** Puts the former site back after a failed update. */
    method Undo(id: string, former: Option<Site>, env: Environment) returns (v: Verdict)
      requires Valid() && id in rows && (forall other :: other in rows && other != id ==> Quiet(rows, other))
      requires OwnedBy(id, former)
      modifies this
      ensures Valid() && (v.Errored? || v.Crashed?)
      ensures v.Crashed? <==>
              env(4).Killed? || (env(4).Done? && env(5).Killed?) || (env(4) == env(5) == Done && env(6).Killed?)
      ensures id in rows && Elsewhere(old(rows), rows, id)
      ensures Answer(rows, id) == former || rows == old(rows)
      ensures env(4) == env(5) == env(6) == Done ==> rows[id] == Row(Applied, former, None) && loaded == Live(rows)
    {
      BusyKeeps(rows, loaded, id, Row(Recovering, former, None));
      var saved := Save(id, Row(Recovering, former, None), env(4));
      if !saved.Succeeded? {
        return if saved.Crashed? then Crashed else Errored;
      }
      var reloaded := Reload(env(5));
      if !reloaded.Succeeded? {
        return if reloaded.Crashed? then Crashed else Errored;
      }
      LiveIgnoresPhase(rows, id, Applied);
      saved := Save(id, Row(Applied, former, None), env(6));
      return if saved.Crashed? then Crashed else Errored;
    }

    method UpdateSite(id: string, candidate: Option<Site>, env: Environment) returns (v: Verdict)
      requires Valid()
      modifies this
      ensures Valid()
      ensures v.Refused? <==> !OwnedBy(id, candidate) || exists other :: other in old(rows) && !Quiet(old(rows), other)
      ensures v.Refused? || SiteOf(old(rows), id) == candidate ==> rows == old(rows) && loaded == old(loaded)
      ensures Elsewhere(old(rows), rows, id)
      ensures Answer(rows, id) == Answer(old(rows), id) || Answer(rows, id) == candidate
      ensures v.Succeeded? ==> SiteOf(rows, id) == candidate && loaded == Live(rows) && Settled(rows) && env(0).Done?
      ensures v.Errored? && env(4) == env(5) == env(6) == Done ==>
                (loaded == old(loaded) && Settled(rows) && SameSites(old(rows), rows)
                 <==> !env(1).Lost? || SiteOf(old(rows), id) == candidate)
      ensures env(1).Lost? && !v.Refused? && SiteOf(old(rows), id) != candidate ==> v.Errored?
      ensures v.Errored? && env(1).Lost? ==> Answer(rows, id) == Answer(old(rows), id) && loaded == old(loaded)
      ensures Healthy(env) && !v.Refused? ==> v.Succeeded?
    {
      if candidate.Some? && (candidate.value.id != id || !CaddySites.Valid(candidate.value)) {
        return Refused;
      }
      var interrupted := AnyInterrupted();
      if interrupted {
        return Refused;
      }
      AllQuiet(rows, loaded);
      var former := if id in rows then rows[id].site else None;
      if former == candidate {
        return Ending(env(0));
      }
      v := Transact(id, candidate, former, env);
    }

    /** Loads the announced site, verifies it and records it as applied. */
    method Commit(id: string, candidate: Option<Site>, former: Option<Site>, env: Environment) returns (v: Verdict)
      requires Valid() && id in rows && rows[id] == Row(Applying, candidate, former)
      requires forall other :: other in rows && other != id ==> Quiet(rows, other)
      modifies this
      ensures Valid() && !v.Refused? && id in rows && Elsewhere(old(rows), rows, id)
      ensures rows == old(rows) || rows == old(rows)[id := Row(Applied, candidate, former)]
      ensures v.Succeeded? ==> rows[id].phase.Applied? && loaded == Live(rows) && env(0).Done?
      ensures Healthy(env) ==> v.Succeeded?
    {
      v := Reload(env(2));
      if v.Succeeded? {
        v := Ending(env(0));
      }
      if v.Succeeded? {
        LiveIgnoresPhase(rows, id, Applied);
        v := Save(id, Row(Applied, candidate, former), env(3));
      }
    }

    method CommitOrUndo(id: string, candidate: Option<Site>, former: Option<Site>, env: Environment)
        returns (v: Verdict)
      requires Valid() && id in rows && rows[id] == Row(Applying, candidate, former) && OwnedBy(id, former)
      requires forall other :: other in rows && other != id ==> Quiet(rows, other)
      modifies this
      ensures Valid() && !v.Refused? && id in rows && Elsewhere(old(rows), rows, id)
      ensures Answer(rows, id) == former || Answer(rows, id) == candidate
      ensures v.Succeeded? ==> rows[id] == Row(Applied, candidate, former) && loaded == Live(rows) && env(0).Done?
      ensures v.Errored? && env(4) == env(5) == env(6) == Done ==>
                rows[id] == Row(Applied, former, None) && loaded == Live(rows)
      ensures Healthy(env) ==> v.Succeeded?
    {
      hide Ledger, Live, OwnedBy;
      v := Commit(id, candidate, former, env);
      if v.Errored? {
        v := Undo(id, former, env);
      }
    }

    /** The transaction proper: announce, load, verify, record; on an error put the former site back. */
    method Transact(id: string, candidate: Option<Site>, former: Option<Site>, env: Environment) returns (v: Verdict)
      requires Valid() && Settled(rows) && loaded == Live(rows)
      requires former == SiteOf(rows, id) && OwnedBy(id, candidate)
      modifies this
      ensures Valid() && !v.Refused?
      ensures Elsewhere(old(rows), rows, id)
      ensures Answer(rows, id) == former || Answer(rows, id) == candidate
      ensures v.Succeeded? ==> SiteOf(rows, id) == candidate && loaded == Live(rows) && Settled(rows) && env(0).Done?
      ensures v.Errored? && !env(1).Lost? && env(4) == env(5) == env(6) == Done ==>
                loaded == old(loaded) && Settled(rows) && SameSites(old(rows), rows)
      ensures env(1).Lost? ==> v.Errored? && !Settled(rows) && Answer(rows, id) == former && loaded == old(loaded)
      ensures Healthy(env) ==> v.Succeeded?
    {
      ghost var first := rows;
      BusyKeeps(rows, loaded, id, Row(Applying, candidate, former));
      hide Ledger, Live, OwnedBy, SameSites;
      v := Save(id, Row(Applying, candidate, former), env(1));
      if !v.Succeeded? {
        return;
      }
      ghost var announced := rows;
      v := CommitOrUndo(id, candidate, former, env);
      Rejoin(first, announced, rows, id);
      hide Elsewhere, Settled;
      if v.Errored? && env(4) == env(5) == env(6) == Done {
        SitesBack(first, rows, id);
      }
    }

    /** Rolls an unfinished update back. */
    method Restore(env: Environment) returns (v: Verdict)
      requires Valid()
      modifies this
      ensures Valid() && !v.Refused?
      ensures forall id :: Answer(rows, id) == Answer(old(rows), id)
      ensures v.Succeeded? ==> loaded == Live(rows) && Settled(rows) && forall id :: id in rows ==>
                SiteOf(rows, id) == Answer(old(rows), id)
      ensures Settled(old(rows)) ==> rows == old(rows) && loaded == old(loaded)
      ensures Healthy(env) ==> v.Succeeded?
    {
      var interrupted := AnyInterrupted();
      if !interrupted {
        AllQuiet(rows, loaded);
        return Succeeded;
      }
      ghost var was := rows;
      v := Mark(env);
      forall id ensures Answer(rows, id) == Answer(was, id) {
        BetweenAnswers(was, rows, id);
      }
      if !v.Succeeded? {
        return;
      }
      v := Reload(env(0));
      if !v.Succeeded? {
        return;
      }
      v := Finish(env);
    }

    /** First pass: every interrupted row is turned back to its former site. */
    method Mark(env: Environment) returns (v: Verdict)
      requires Valid()
      modifies this`rows
      ensures Valid() && !v.Refused? && Between(old(rows), rows)
      ensures v.Succeeded? ==> forall id :: id in rows ==> rows[id] == Rolled(old(rows)[id])
      ensures Healthy(env) ==> v.Succeeded?
    {
      ghost var was := rows;
      var todo, k := rows.Keys, 1;
      while todo != {}
        invariant todo <= was.Keys && Valid() && Between(was, rows) && k >= 1
        invariant forall id :: id in todo ==> rows[id] == was[id]
        invariant forall id :: id in was && id !in todo ==> rows[id] == Rolled(was[id])
      {
        var id :| id in todo;
        if !rows[id].phase.Applied? {
          ghost var before := rows;
          v := Save(id, Rolled(rows[id]), env(k));
          RolledKeeps(was, before, rows, loaded, id);
          if !v.Succeeded? {
            return;
          }
          k := k + 1;
        }
        todo := todo - {id};
      }
      return Succeeded;
    }

    /** Second pass: what has been loaded is recorded as applied. */
    method Finish(env: Environment) returns (v: Verdict)
      requires Valid() && loaded == Live(rows) && forall id :: id in rows ==> !rows[id].phase.Applying?
      modifies this`rows
      ensures Valid() && !v.Refused? && (forall id :: Answer(rows, id) == Answer(old(rows), id))
      ensures rows.Keys == old(rows).Keys && forall id :: id in rows ==> rows[id].site == old(rows)[id].site
      ensures v.Succeeded? ==> loaded == Live(rows) && Settled(rows)
      ensures Healthy(env) ==> v.Succeeded?
    {
      ghost var was := rows;
      var todo, k := rows.Keys, 1;
      while todo != {}
        invariant todo <= was.Keys && Valid() && Serving(was, rows) && loaded == Live(rows) && k >= 1
        invariant forall id :: id in rows && id !in todo ==> Quiet(rows, id)
      {
        var id :| id in todo;
        if rows[id].phase.Recovering? {
          ghost var before := rows;
          v := Save(id, rows[id].(phase := Applied), env(k + |rows|));
          AppliedKeeps(was, before, rows, loaded, id);
          if !v.Succeeded? {
            return;
          }
          k := k + 1;
        }
        todo := todo - {id};
      }
      return Succeeded;
    }
  }

  function Rolled(row: Row): Row {
    if row.phase.Applying? then Row(Recovering, row.previous, None) else row
  }

  /** Some interrupted rows have been turned back. */
  predicate Between(was: Rows, now: Rows) {
    && now.Keys == was.Keys
    && forall id :: id in now ==> now[id] == was[id] || now[id] == Rolled(was[id])
  }

  lemma RolledKeeps(was: Rows, before: Rows, after: Rows, loaded: Loaded, id: string)
    requires Ledger(before, loaded) && Between(was, before) && id in was && before[id] == was[id]
               && !was[id].phase.Applied?
    requires after == before[id := Rolled(was[id])] || after == before
    ensures Ledger(after, loaded) && Between(was, after)
  {
    forall other ensures Quiet(after, other) == Quiet(before, other) {
    }
    forall other | Quiet(after, other) ensures Shown(loaded, other) == SiteOf(after, other) {
      assert Quiet(before, other);
      assert other != id;
    }
  }

  lemma BetweenAnswers(was: Rows, now: Rows, id: string)
    requires Between(was, now)
    ensures Answer(now, id) == Answer(was, id)
  {
  }

  /** Only phases changed, and only towards applied. */
  predicate Serving(was: Rows, now: Rows) {
    && now.Keys == was.Keys
    && forall id :: id in now ==>
        !now[id].phase.Applying? && !was[id].phase.Applying? && now[id].site == was[id].site
        && now[id].previous == was[id].previous
  }

  lemma AppliedKeeps(was: Rows, before: Rows, after: Rows, loaded: Loaded, id: string)
    requires Ledger(before, loaded) && Serving(was, before) && loaded == Live(before) && id in before
    requires after == before[id := before[id].(phase := Applied)] || after == before
    ensures Ledger(after, loaded) && Serving(was, after) && loaded == Live(after)
  {
    assert Live(after) == Live(before);
    forall other ensures Shown(loaded, other) == SiteOf(after, other) {
      assert other in after <==> other in before;
    }
  }

  /** Any unfinished row may stand beside finished ones. */
  lemma BusyKeeps(rows: Rows, loaded: Loaded, id: string, row: Row)
    requires Ledger(rows, loaded) && forall other :: other in rows && other != id ==> Quiet(rows, other)
    requires !row.phase.Applied? && OwnedBy(id, row.site) && OwnedBy(id, row.previous)
    ensures Ledger(rows[id := row], loaded)
  {
  }

  lemma LiveIgnoresPhase(rows: Rows, id: string, phase: Phase)
    requires id in rows
    ensures Live(rows[id := rows[id].(phase := phase)]) == Live(rows)
    ensures forall other :: Shown(Live(rows), other) == SiteOf(rows, other)
  {
  }

  lemma Rejoin(first: Rows, announced: Rows, now: Rows, id: string)
    requires Settled(first) && id in now && Elsewhere(announced, now, id) && id in announced
               && announced == first[id := announced[id]]
    ensures Elsewhere(first, now, id) && (now[id].phase.Applied? ==> Settled(now))
  {
  }

  lemma SitesBack(before: Rows, after: Rows, id: string)
    requires id in after && Elsewhere(before, after, id) && SiteOf(after, id) == SiteOf(before, id)
    ensures Live(after) == Live(before) && SameSites(before, after)
  {
  }

  /** A lost reply to the announcement is the one failure that is not undone: updates wait for the next restore. */
  method LostAnnouncement(site: Site) returns (journal: Journal, first: Verdict, second: Verdict)
    requires CaddySites.Valid(site)
    ensures fresh(journal) && journal.Valid()
    ensures first.Errored? && !Settled(journal.rows) && journal.loaded == map[]
    ensures second.Refused?
  {
    journal := new Journal();
    first := journal.UpdateSite(site.id, Some(site), k => if k == 1 then Lost else Done);
    second := journal.UpdateSite(site.id, Some(site), _ => Done);
  }

  // ---------------------------------------------------------------- runs

  datatype Event =
    | Update(id: string, candidate: Option<Site>, env: Environment)
    | Recover(env: Environment)
    | GatewayLoad(outcome: Outcome)   // the gateway reloads its own configuration with the same sites

  ghost predicate Submitted(events: seq<Event>, n: int, id: string, site: Option<Site>) {
    exists i :: 0 <= i < n <= |events| && events[i].Update? && events[i].id == id && events[i].candidate == site
  }

  /**
   In every run an application is committed to the site it had or to one submitted for it, and no other is affected.
   */
  method Run(journal: Journal, events: seq<Event>)
    requires journal.Valid()
    modifies journal
    ensures journal.Valid()
    ensures forall id :: Answer(journal.rows, id) == Answer(old(journal.rows), id)
              || Submitted(events, |events|, id, Answer(journal.rows, id))
  {
    for i := 0 to |events|
      invariant journal.Valid()
      invariant forall id :: Answer(journal.rows, id) == Answer(old(journal.rows), id)
                  || Submitted(events, i, id, Answer(journal.rows, id))
    {
      ghost var before := journal.rows;
      Step(journal, events[i]);
      forall id ensures Answer(journal.rows, id) == Answer(old(journal.rows), id)
          || Submitted(events, i + 1, id, Answer(journal.rows, id)) {
        if Answer(journal.rows, id) == Answer(before, id) && Submitted(events, i, id, Answer(before, id)) {
          var k :| 0 <= k < i && events[k].Update? && events[k].id == id && events[k].candidate == Answer(before, id);
          assert events[k].Update?;
        } else if Answer(journal.rows, id) != Answer(before, id) {
          assert events[i].Update?;
        }
      }
    }
  }

  method Step(journal: Journal, event: Event)
    requires journal.Valid()
    modifies journal
    ensures journal.Valid()
    ensures forall id :: Answer(journal.rows, id) == Answer(old(journal.rows), id) ||
                         (event.Update? && event.id == id && event.candidate == Answer(journal.rows, id))
  {
    match event
    case Update(id, candidate, env) => var _ := journal.UpdateSite(id, candidate, env);
    case Recover(env) => var _ := journal.Restore(env);
    case GatewayLoad(outcome) => var _ := journal.Reload(outcome);
  }
}
