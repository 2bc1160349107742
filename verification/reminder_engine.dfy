/** The reminder engine of app/reminder_engine.py: every tick fetches the
    upcoming events, sends each reminder that is due and not yet recorded for
    the event's current version, records it only once the message went out,
    and then forgets events that ended more than an hour ago.

    Instants are integers counting seconds. The calendar fetch is a parameter
    of the tick (`None` when the fetch raised); the SMS channel is a
    `Notifier` whose sends fail on a fixed set of attempt numbers. */
module ReminderEngine {
  import opened Common
  import opened Models
  import opened ReminderState

  const Minute: int := 60
  const Hour: int := 60 * Minute

  /** One entry of the fixed schedule: the kind recorded in the store, how
      long before the start it fires, and the message around the title. */
  datatype Reminder = Reminder(kind: string, lead: int, before: string, after: string)

  const TwoHours: Reminder := Reminder("2h", 2 * Hour, "⏰ Heads up! '", "' starts in ~2 hours.")
  const TenMinutes: Reminder := Reminder("10m", 10 * Minute, "🚀 Almost go time! '", "' kicks off in 10 minutes.")

  /** The schedule in the order the tick evaluates it. */
  const Schedule: seq<Reminder> := [TwoHours, TenMinutes]

  /** The kinds the schedule records. */
  const ScheduleKinds: set<string> := {"2h", "10m"}

  /** The template with the title in its one placeholder. */
  function Render(r: Reminder, title: string): string
  {
    r.before + title + r.after
  }

  /** The rendered text is the template's opening, then the event's title
      word for word, then the template's closing. */
  lemma RenderPlacesTitle(r: Reminder, title: string)
    ensures var s := Render(r, title);
      && |s| == |r.before| + |title| + |r.after|
      && s[..|r.before|] == r.before
      && s[|r.before|..|r.before| + |title|] == title
      && s[|r.before| + |title|..] == r.after
  {
  }

  /** The reminder's trigger instant has been reached. */
  predicate Due(e: EventResponse, r: Reminder, now: int)
  {
    now >= e.startTime.instant - r.lead
  }

  /** Once due, a reminder stays due; the "10m" reminder is never due
      before the "2h" one. */
  lemma DueOrder(e: EventResponse, r: Reminder, now: int, later: int)
    ensures Due(e, r, now) && now <= later ==> Due(e, r, later)
    ensures Due(e, TenMinutes, now) ==> Due(e, TwoHours, now)
  {
  }

  /** The version token: the update stamp's text if there is one, else the
      start's text. */
  function VersionKey(e: EventResponse): string
  {
    (if e.updatedAt.Some? then e.updatedAt.value else e.startTime).iso
  }

  /** With an update stamp, the version follows the stamp alone, whatever
      the start; without one, moving the start to a time written differently
      changes the version. */
  lemma VersionKeyFollows(e: EventResponse, f: EventResponse)
    ensures e.updatedAt.Some? && f.updatedAt.Some? ==>
              (VersionKey(e) == VersionKey(f) <==> e.updatedAt.value.iso == f.updatedAt.value.iso)
    ensures e.updatedAt.None? && f.updatedAt.None? ==>
              (VersionKey(e) == VersionKey(f) <==> e.startTime.iso == f.startTime.iso)
  {
  }

  /** The event ended more than the one-hour retention horizon ago. */
  predicate Expired(e: EventResponse, now: int)
  {
    e.endTime.instant < now - Hour
  }

  /** Once expired, an event stays expired; an event that ended within the
      last hour, or has not ended, is not. */
  lemma ExpiredOrder(e: EventResponse, now: int, later: int)
    ensures Expired(e, now) && now <= later ==> Expired(e, later)
    ensures e.endTime.instant >= now - Hour ==> !Expired(e, now)
  {
  }

  /** A reminder message for one event, kind and version. */
  datatype Notice = Notice(eventId: string, kind: string, version: string, body: string)

  function NoticeFor(e: EventResponse, r: Reminder): Notice
  {
    Notice(e.id, r.kind, VersionKey(e), Render(r, e.summary))
  }

  // ---------------------------------------------------------------------
  // Specification of one tick.

  /** The state of a tick in progress: the store's map, every send attempted
      so far and the sends that went through. */
  datatype Pass = Pass(state: StateMap, tried: seq<Notice>, sent: seq<Notice>)

  /** One reminder for one event. The attempt numbered `n0 + |p.tried|`
      fails exactly when that number is in `failing`. */
  function Remind(p: Pass, e: EventResponse, r: Reminder, now: int, failing: set<nat>, n0: nat): Pass
  {
    if Due(e, r, now) && !HasSentIn(p.state, e.id, r.kind, VersionKey(e)) then
      var note := NoticeFor(e, r);
      if n0 + |p.tried| in failing then Pass(p.state, p.tried + [note], p.sent)
      else Pass(MarkSentIn(p.state, e.id, r.kind, VersionKey(e)), p.tried + [note], p.sent + [note])
    else p
  }

  function RemindAll(p: Pass, e: EventResponse, rs: seq<Reminder>, now: int, failing: set<nat>, n0: nat): Pass
    decreases |rs|
  {
    if rs == [] then p
    else Remind(RemindAll(p, e, rs[..|rs| - 1], now, failing, n0), e, rs[|rs| - 1], now, failing, n0)
  }

  /** The send pass over the fetched events, in order. */
  function SendPass(p: Pass, events: seq<EventResponse>, now: int, failing: set<nat>, n0: nat): Pass
    decreases |events|
  {
    if events == [] then p
    else RemindAll(SendPass(p, events[..|events| - 1], now, failing, n0), events[|events| - 1], Schedule, now, failing, n0)
  }

  /** The ids of the fetched events that have expired. */
  ghost function ExpiredIds(events: seq<EventResponse>, now: int): set<string>
  {
    set i | 0 <= i < |events| && Expired(events[i], now) :: events[i].id
  }

  /** The cleanup pass: clear every fetched event that has expired. */
  function Cleanup(state: StateMap, events: seq<EventResponse>, now: int): (r: StateMap)
    ensures r == state - ExpiredIds(events, now)
    decreases |events|
  {
    if events == [] then state
    else
      var init := events[..|events| - 1];
      var last := events[|events| - 1];
      assert ExpiredIds(events, now) == ExpiredIds(init, now) + (if Expired(last, now) then {last.id} else {}) by {
        forall id ensures id in ExpiredIds(events, now) <==> id in ExpiredIds(init, now) || (Expired(last, now) && id == last.id) {
          if id in ExpiredIds(events, now) {
            var i :| 0 <= i < |events| && Expired(events[i], now) && events[i].id == id;
            if i < |init| { assert init[i] == events[i]; }
          }
          if id in ExpiredIds(init, now) {
            var i :| 0 <= i < |init| && Expired(init[i], now) && init[i].id == id;
            assert events[i] == init[i];
          }
        }
      }
      var s := Cleanup(state, init, now);
      if Expired(last, now) then s - {last.id} else s
  }

  /** A whole tick after a successful fetch. */
  function TickSpec(state: StateMap, events: seq<EventResponse>, now: int, failing: set<nat>, n0: nat): Pass
  {
    var p := SendPass(Pass(state, [], []), events, now, failing, n0);
    Pass(Cleanup(p.state, events, now), p.tried, p.sent)
  }

  // ---------------------------------------------------------------------
  // What a tick attempts, marks and clears.

  predicate UniqueIds(events: seq<EventResponse>)
  {
    forall i, j :: 0 <= i < j < |events| ==> events[i].id != events[j].id
  }

  /** The sends one event asks for when the store is `state`: each due
      schedule entry not yet recorded under the event's version, "2h" first. */
  function Wanted(state: StateMap, e: EventResponse, now: int): seq<Notice>
  {
    (if Due(e, TwoHours, now) && !HasSentIn(state, e.id, TwoHours.kind, VersionKey(e)) then [NoticeFor(e, TwoHours)] else [])
    + (if Due(e, TenMinutes, now) && !HasSentIn(state, e.id, TenMinutes.kind, VersionKey(e)) then [NoticeFor(e, TenMinutes)] else [])
  }

  function AllWanted(state: StateMap, events: seq<EventResponse>, now: int): seq<Notice>
    decreases |events|
  {
    if events == [] then []
    else AllWanted(state, events[..|events| - 1], now) + Wanted(state, events[|events| - 1], now)
  }

  /** The map is the same at `id` in both states. */
  predicate SameAt(s1: StateMap, s2: StateMap, id: string)
  {
    (id in s1 <==> id in s2) && (id in s1 ==> s1[id] == s2[id])
  }

  /** The schedule loop, unrolled. */
  lemma RemindSchedule(p: Pass, e: EventResponse, now: int, failing: set<nat>, n0: nat)
    ensures RemindAll(p, e, Schedule, now, failing, n0)
            == Remind(Remind(p, e, TwoHours, now, failing, n0), e, TenMinutes, now, failing, n0)
  {
    var first := Schedule[..1];
    assert first == [TwoHours] && first[..0] == [];
    assert RemindAll(p, e, first, now, failing, n0) == Remind(p, e, TwoHours, now, failing, n0);
    assert Schedule[..|Schedule| - 1] == first;
  }

  /** One reminder step records only schedule kinds. */
  lemma RemindKeepsKnownKinds(p: Pass, e: EventResponse, r: Reminder, now: int, failing: set<nat>, n0: nat)
    requires r in Schedule && KnownKinds(p.state, ScheduleKinds)
    ensures KnownKinds(Remind(p, e, r, now, failing, n0).state, ScheduleKinds)
  {
    assert r.kind in ScheduleKinds;
    MarkSentKeepsKnownKinds(p.state, e.id, r.kind, VersionKey(e), ScheduleKinds);
  }

  /** The send pass records only schedule kinds. */
  lemma {:induction false} SendPassKeepsKnownKinds(p: Pass, events: seq<EventResponse>, now: int, failing: set<nat>, n0: nat)
    requires KnownKinds(p.state, ScheduleKinds)
    ensures KnownKinds(SendPass(p, events, now, failing, n0).state, ScheduleKinds)
    decreases |events|
  {
    if events != [] {
      var q := SendPass(p, events[..|events| - 1], now, failing, n0);
      var e := events[|events| - 1];
      SendPassKeepsKnownKinds(p, events[..|events| - 1], now, failing, n0);
      RemindSchedule(q, e, now, failing, n0);
      RemindKeepsKnownKinds(q, e, TwoHours, now, failing, n0);
      RemindKeepsKnownKinds(Remind(q, e, TwoHours, now, failing, n0), e, TenMinutes, now, failing, n0);
    }
  }

  /** A store whose entries hold only schedule kinds keeps that property
      through a tick: the send pass marks schedule kinds only and the
      cleanup only removes entries. */
  lemma TickKeepsKnownKinds(state: StateMap, events: seq<EventResponse>, now: int, failing: set<nat>, n0: nat)
    requires KnownKinds(state, ScheduleKinds)
    ensures KnownKinds(TickSpec(state, events, now, failing, n0).state, ScheduleKinds)
  {
    SendPassKeepsKnownKinds(Pass(state, [], []), events, now, failing, n0);
  }

  /** A due, unrecorded reminder whose attempt goes through is recorded and
      delivered. */
  lemma RemindDelivers(p: Pass, e: EventResponse, r: Reminder, now: int, failing: set<nat>, n0: nat)
    requires Due(e, r, now) && !HasSentIn(p.state, e.id, r.kind, VersionKey(e))
    requires n0 + |p.tried| !in failing
    ensures Remind(p, e, r, now, failing, n0)
            == Pass(MarkSentIn(p.state, e.id, r.kind, VersionKey(e)), p.tried + [NoticeFor(e, r)], p.sent + [NoticeFor(e, r)])
  {
  }

  /** A due, unrecorded reminder whose attempt fails is only counted as tried. */
  lemma RemindFails(p: Pass, e: EventResponse, r: Reminder, now: int, failing: set<nat>, n0: nat)
    requires Due(e, r, now) && !HasSentIn(p.state, e.id, r.kind, VersionKey(e))
    requires n0 + |p.tried| in failing
    ensures Remind(p, e, r, now, failing, n0) == Pass(p.state, p.tried + [NoticeFor(e, r)], p.sent)
  {
  }

  /** One reminder touches no other event's entry. */
  lemma RemindFrame(p: Pass, e: EventResponse, r: Reminder, now: int, failing: set<nat>, n0: nat, id: string)
    requires id != e.id
    ensures SameAt(Remind(p, e, r, now, failing, n0).state, p.state, id)
  {
  }

  /** One reminder attempts its send exactly when it is due and unrecorded. */
  lemma RemindTried(p: Pass, e: EventResponse, r: Reminder, now: int, failing: set<nat>, n0: nat)
    ensures Remind(p, e, r, now, failing, n0).tried
            == p.tried + if Due(e, r, now) && !HasSentIn(p.state, e.id, r.kind, VersionKey(e)) then [NoticeFor(e, r)] else []
  {
  }

  /** One reminder leaves the record of every other kind of the same event,
      under the same version, as it was. */
  lemma RemindOtherKind(p: Pass, e: EventResponse, r: Reminder, now: int, failing: set<nat>, n0: nat, k: string)
    requires k != r.kind
    ensures HasSentIn(Remind(p, e, r, now, failing, n0).state, e.id, k, VersionKey(e))
            == HasSentIn(p.state, e.id, k, VersionKey(e))
  {
    MarkSentThenHasSent(p.state, e.id, r.kind, VersionKey(e), e.id, k, VersionKey(e));
  }

  /** Processing one event attempts exactly what it wants, "2h" before
      "10m". */
  lemma EventAttempts(p: Pass, e: EventResponse, now: int, failing: set<nat>, n0: nat)
    ensures RemindAll(p, e, Schedule, now, failing, n0).tried == p.tried + Wanted(p.state, e, now)
  {
    RemindSchedule(p, e, now, failing, n0);
    var q := Remind(p, e, TwoHours, now, failing, n0);
    RemindTried(p, e, TwoHours, now, failing, n0);
    RemindTried(q, e, TenMinutes, now, failing, n0);
    RemindOtherKind(p, e, TwoHours, now, failing, n0, TenMinutes.kind);
  }

  /** Processing one event touches no other event's entry. */
  lemma EventFrame(p: Pass, e: EventResponse, now: int, failing: set<nat>, n0: nat, id: string)
    requires id != e.id
    ensures SameAt(RemindAll(p, e, Schedule, now, failing, n0).state, p.state, id)
  {
    RemindSchedule(p, e, now, failing, n0);
    RemindFrame(p, e, TwoHours, now, failing, n0, id);
    RemindFrame(Remind(p, e, TwoHours, now, failing, n0), e, TenMinutes, now, failing, n0, id);
  }

  /** The send pass touches only the entries of the events it processes. */
  lemma {:induction false} SendPassFrame(p: Pass, events: seq<EventResponse>, now: int, failing: set<nat>, n0: nat, id: string)
    requires forall i :: 0 <= i < |events| ==> events[i].id != id
    ensures SameAt(SendPass(p, events, now, failing, n0).state, p.state, id)
    decreases |events|
  {
    if events != [] {
      var init := events[..|events| - 1];
      assert forall i :: 0 <= i < |init| ==> init[i] == events[i];
      SendPassFrame(p, init, now, failing, n0, id);
      EventFrame(SendPass(p, init, now, failing, n0), events[|events| - 1], now, failing, n0, id);
    }
  }

  /** With distinct event ids, a tick attempts exactly the sends the store
      it started from asks for: every due reminder not yet recorded under the
      event's current version, events in fetch order, "2h" before "10m". */
  lemma {:induction false} TickAttempts(state: StateMap, events: seq<EventResponse>, now: int, failing: set<nat>, n0: nat)
    requires UniqueIds(events)
    ensures TickSpec(state, events, now, failing, n0).tried == AllWanted(state, events, now)
    decreases |events|
  {
    SendPassAttempts(Pass(state, [], []), events, now, failing, n0);
  }

  lemma {:induction false} SendPassAttempts(p: Pass, events: seq<EventResponse>, now: int, failing: set<nat>, n0: nat)
    requires UniqueIds(events)
    ensures SendPass(p, events, now, failing, n0).tried == p.tried + AllWanted(p.state, events, now)
    decreases |events|
  {
    if events != [] {
      var init := events[..|events| - 1];
      var last := events[|events| - 1];
      UniqueIdsInit(events, init);
      SendPassAttempts(p, init, now, failing, n0);
      var q := SendPass(p, init, now, failing, n0);
      SendPassFrame(p, init, now, failing, n0, last.id);
      WantedSameAt(q.state, p.state, last, now);
      EventAttempts(q, last, now, failing, n0);
      assert SendPass(p, events, now, failing, n0) == RemindAll(q, last, Schedule, now, failing, n0);
      assert AllWanted(p.state, events, now) == AllWanted(p.state, init, now) + Wanted(p.state, last, now);
      assert q.tried == p.tried + AllWanted(p.state, init, now);
    }
  }

  /** Dropping the last of distinct ids leaves distinct ids, none of them
      the last one's. */
  lemma UniqueIdsInit(events: seq<EventResponse>, init: seq<EventResponse>)
    requires UniqueIds(events) && events != [] && init == events[..|events| - 1]
    ensures UniqueIds(init)
    ensures forall i :: 0 <= i < |init| ==> init[i].id != events[|events| - 1].id
  {
  }

  /** What an event wants depends only on its own entry. */
  lemma WantedSameAt(s1: StateMap, s2: StateMap, e: EventResponse, now: int)
    requires SameAt(s1, s2, e.id)
    ensures Wanted(s1, e, now) == Wanted(s2, e, now)
  {
  }

  /** Applying `mark_sent` for each delivered message in turn. */
  function ApplyMarks(state: StateMap, notes: seq<Notice>): StateMap
    decreases |notes|
  {
    if notes == [] then state
    else
      var n := notes[|notes| - 1];
      MarkSentIn(ApplyMarks(state, notes[..|notes| - 1]), n.eventId, n.kind, n.version)
  }

  /** The attempts numbered from `n0` that the notifier does not fail. */
  function Delivered(tried: seq<Notice>, failing: set<nat>, n0: nat): seq<Notice>
    decreases |tried|
  {
    if tried == [] then []
    else Delivered(tried[..|tried| - 1], failing, n0) + (if n0 + |tried| - 1 in failing then [] else [tried[|tried| - 1]])
  }

  /** The pass invariant of send-before-mark: the map is the starting map
      with the delivered messages marked, and the delivered messages are the
      attempts that did not fail. */
  predicate MarksDelivered(p: Pass, start: StateMap, failing: set<nat>, n0: nat)
  {
    p.sent == Delivered(p.tried, failing, n0) && p.state == ApplyMarks(start, p.sent)
  }

  lemma DeliveredAppend(tried: seq<Notice>, note: Notice, failing: set<nat>, n0: nat)
    ensures n0 + |tried| in failing ==> Delivered(tried + [note], failing, n0) == Delivered(tried, failing, n0)
    ensures n0 + |tried| !in failing ==> Delivered(tried + [note], failing, n0) == Delivered(tried, failing, n0) + [note]
  {
    assert (tried + [note])[..|tried|] == tried;
    if n0 + |tried| in failing {
      assert Delivered(tried, failing, n0) + [] == Delivered(tried, failing, n0);
    }
  }

  lemma ApplyMarksAppend(start: StateMap, sent: seq<Notice>, note: Notice)
    ensures ApplyMarks(start, sent + [note]) == MarkSentIn(ApplyMarks(start, sent), note.eventId, note.kind, note.version)
  {
    var s := sent + [note];
    assert s[..|s| - 1] == sent && s[|s| - 1] == note;
  }

  lemma RemindMarksDelivered(p: Pass, e: EventResponse, r: Reminder, now: int, failing: set<nat>, n0: nat, start: StateMap)
    requires MarksDelivered(p, start, failing, n0)
    ensures MarksDelivered(Remind(p, e, r, now, failing, n0), start, failing, n0)
  {
    if Due(e, r, now) && !HasSentIn(p.state, e.id, r.kind, VersionKey(e)) {
      var note := NoticeFor(e, r);
      var q := Remind(p, e, r, now, failing, n0);
      DeliveredAppend(p.tried, note, failing, n0);
      if n0 + |p.tried| in failing {
        RemindFails(p, e, r, now, failing, n0);
        assert q.tried == p.tried + [note] && q.sent == p.sent && q.state == p.state;
      } else {
        RemindDelivers(p, e, r, now, failing, n0);
        ApplyMarksAppend(start, p.sent, note);
        assert q.tried == p.tried + [note] && q.sent == p.sent + [note];
        assert q.state == MarkSentIn(p.state, note.eventId, note.kind, note.version);
      }
    }
  }

  lemma {:induction false} SendPassMarksDelivered(p: Pass, events: seq<EventResponse>, now: int, failing: set<nat>, n0: nat, start: StateMap)
    requires MarksDelivered(p, start, failing, n0)
    ensures MarksDelivered(SendPass(p, events, now, failing, n0), start, failing, n0)
    decreases |events|
  {
    if events != [] {
      var init := events[..|events| - 1];
      var last := events[|events| - 1];
      SendPassMarksDelivered(p, init, now, failing, n0, start);
      var q := SendPass(p, init, now, failing, n0);
      RemindSchedule(q, last, now, failing, n0);
      RemindMarksDelivered(q, last, TwoHours, now, failing, n0, start);
      RemindMarksDelivered(Remind(q, last, TwoHours, now, failing, n0), last, TenMinutes, now, failing, n0, start);
    }
  }

  /** Send before mark: before cleanup, a tick's map is the old map with
      exactly the delivered messages marked, in the order they went out, and
      a message is delivered exactly when its attempt did not fail. */
  lemma TickMarksOnlyDelivered(state: StateMap, events: seq<EventResponse>, now: int, failing: set<nat>, n0: nat)
    ensures var p := SendPass(Pass(state, [], []), events, now, failing, n0);
            p.sent == Delivered(p.tried, failing, n0) && p.state == ApplyMarks(state, p.sent)
  {
    SendPassMarksDelivered(Pass(state, [], []), events, now, failing, n0, state);
  }

  // ---------------------------------------------------------------------
  // Exactly once per version.

  /** Every due reminder of `e` is recorded under its current version. */
  predicate Covered(state: StateMap, e: EventResponse, now: int)
  {
    (Due(e, TwoHours, now) ==> HasSentIn(state, e.id, TwoHours.kind, VersionKey(e)))
    && (Due(e, TenMinutes, now) ==> HasSentIn(state, e.id, TenMinutes.kind, VersionKey(e)))
  }

  /** No attempt numbered from `n0` below `n0 + count` fails. */
  predicate AllDelivered(failing: set<nat>, n0: nat, count: nat)
  {
    forall i :: n0 <= i < n0 + count ==> i !in failing
  }

  /** A due, unrecorded reminder whose send goes through ends up recorded;
      one already recorded stays recorded. */
  lemma RemindCovers(p: Pass, e: EventResponse, r: Reminder, now: int, failing: set<nat>, n0: nat)
    requires AllDelivered(failing, n0, |Remind(p, e, r, now, failing, n0).tried|)
    ensures Due(e, r, now) ==> HasSentIn(Remind(p, e, r, now, failing, n0).state, e.id, r.kind, VersionKey(e))
  {
    if Due(e, r, now) && !HasSentIn(p.state, e.id, r.kind, VersionKey(e)) {
      assert n0 + |p.tried| !in failing;
    }
  }

  lemma EventCovers(p: Pass, e: EventResponse, now: int, failing: set<nat>, n0: nat)
    requires AllDelivered(failing, n0, |RemindAll(p, e, Schedule, now, failing, n0).tried|)
    ensures Covered(RemindAll(p, e, Schedule, now, failing, n0).state, e, now)
  {
    RemindSchedule(p, e, now, failing, n0);
    var q := Remind(p, e, TwoHours, now, failing, n0);
    RemindTried(q, e, TenMinutes, now, failing, n0);
    RemindCovers(p, e, TwoHours, now, failing, n0);
    RemindCovers(q, e, TenMinutes, now, failing, n0);
    RemindOtherKind(q, e, TenMinutes, now, failing, n0, TwoHours.kind);
  }

  lemma {:induction false} SendPassCovers(p: Pass, events: seq<EventResponse>, now: int, failing: set<nat>, n0: nat)
    requires UniqueIds(events)
    requires AllDelivered(failing, n0, |SendPass(p, events, now, failing, n0).tried|)
    ensures forall i :: 0 <= i < |events| ==> Covered(SendPass(p, events, now, failing, n0).state, events[i], now)
    decreases |events|
  {
    if events != [] {
      var init := events[..|events| - 1];
      var last := events[|events| - 1];
      assert UniqueIds(init) by {
        forall i, j | 0 <= i < j < |init| ensures init[i].id != init[j].id { assert init[i] == events[i] && init[j] == events[j]; }
      }
      var q := SendPass(p, init, now, failing, n0);
      var r := RemindAll(q, last, Schedule, now, failing, n0);
      EventAttempts(q, last, now, failing, n0);
      SendPassCovers(p, init, now, failing, n0);
      EventCovers(q, last, now, failing, n0);
      forall i | 0 <= i < |init| ensures Covered(r.state, events[i], now) {
        assert events[i] == init[i];
        EventFrame(q, last, now, failing, n0, init[i].id);
      }
    }
  }

  lemma {:induction false} NothingWantedWhenCovered(state: StateMap, events: seq<EventResponse>, now: int)
    requires forall i :: 0 <= i < |events| ==> Covered(state, events[i], now)
    ensures AllWanted(state, events, now) == []
    decreases |events|
  {
    if events != [] {
      var init := events[..|events| - 1];
      NothingWantedWhenCovered(state, init, now);
    }
  }

  /** After a tick in which every send went through, a second tick at the
      same instant over the same events sends nothing, provided the ids are
      distinct and no fetched event has expired (an expired event's entry is
      cleared at the end of the first tick). */
  lemma SecondTickSendsNothing(state: StateMap, events: seq<EventResponse>, now: int,
                               failing: set<nat>, n0: nat, failing2: set<nat>, n1: nat)
    requires UniqueIds(events)
    requires forall i :: 0 <= i < |events| ==> !Expired(events[i], now)
    requires AllDelivered(failing, n0, |TickSpec(state, events, now, failing, n0).tried|)
    ensures TickSpec(TickSpec(state, events, now, failing, n0).state, events, now, failing2, n1).tried == []
  {
    var p := SendPass(Pass(state, [], []), events, now, failing, n0);
    SendPassCovers(Pass(state, [], []), events, now, failing, n0);
    assert ExpiredIds(events, now) == {};
    var s1 := TickSpec(state, events, now, failing, n0).state;
    assert s1 == p.state;
    NothingWantedWhenCovered(s1, events, now);
    TickAttempts(s1, events, now, failing2, n1);
  }

  lemma {:induction false} WantedAppearsInAll(state: StateMap, events: seq<EventResponse>, now: int, i: nat)
    requires i < |events|
    ensures forall n :: n in Wanted(state, events[i], now) ==> n in AllWanted(state, events, now)
    decreases |events|
  {
    if i < |events| - 1 {
      WantedAppearsInAll(state, events[..|events| - 1], now, i);
      assert events[..|events| - 1][i] == events[i];
    }
  }

  /** When an event's version has changed since its entry was written, the
      tick attempts every reminder of it that is due, whatever was sent
      under the old version. */
  lemma VersionChangeResends(state: StateMap, events: seq<EventResponse>, now: int,
                             failing: set<nat>, n0: nat, i: nat, r: Reminder)
    requires UniqueIds(events)
    requires i < |events| && r in Schedule
    requires events[i].id in state && state[events[i].id].lastUpdated != VersionKey(events[i])
    requires Due(events[i], r, now)
    ensures NoticeFor(events[i], r) in TickSpec(state, events, now, failing, n0).tried
  {
    TickAttempts(state, events, now, failing, n0);
    WantedAppearsInAll(state, events, now, i);
  }

  /** A fetch bounded below by `now` only returns events that end after
      `now`; on such a list the cleanup pass clears nothing. */
  lemma CleanupIdleWithinWindow(state: StateMap, events: seq<EventResponse>, now: int)
    requires forall i :: 0 <= i < |events| ==> events[i].endTime.instant >= now
    ensures Cleanup(state, events, now) == state
  {
    assert ExpiredIds(events, now) == {};
  }

  // ---------------------------------------------------------------------
  // The capabilities and the engine object.

  /** The SMS channel: attempt number `k` (counting from 0) raises exactly
      when `k` is in `failing`; delivered bodies are appended to `outbox`. */
  class Notifier {
    const failing: set<nat>
    var attempts: nat
    var outbox: seq<string>

    constructor (failing: set<nat>)
      ensures this.failing == failing && attempts == 0 && outbox == []
    {
      this.failing := failing;
      attempts := 0;
      outbox := [];
    }

    method Send(body: string) returns (ok: bool)
      modifies this
      ensures ok <==> old(attempts) !in failing
      ensures attempts == old(attempts) + 1
      ensures outbox == if ok then old(outbox) + [body] else old(outbox)
    {
      ok := attempts !in failing;
      attempts := attempts + 1;
      if ok {
        outbox := outbox + [body];
      }
    }
  }

  function Bodies(notes: seq<Notice>): seq<string>
    decreases |notes|
  {
    if notes == [] then [] else Bodies(notes[..|notes| - 1]) + [notes[|notes| - 1].body]
  }

  lemma BodiesAppend(notes: seq<Notice>, note: Notice)
    ensures Bodies(notes + [note]) == Bodies(notes) + [note.body]
  {
    assert (notes + [note])[..|notes|] == notes;
  }

  class Engine {
    const store: ReminderStateStore
    const sms: Notifier
    /** `_running`. */
    var running: bool
    /** How many times the polling job has been registered with the scheduler. */
    ghost var jobs: nat
    /** Every reminder delivered, in order. */
    ghost var log: seq<Notice>

    constructor (store: ReminderStateStore, sms: Notifier)
      ensures this.store == store && this.sms == sms
      ensures !running && jobs == 0 && log == []
    {
      this.store := store;
      this.sms := sms;
      running := false;
      jobs := 0;
      log := [];
    }

    /** `start`: register the polling job unless already running. */
    method Start()
      modifies this
      ensures running
      ensures jobs == if old(running) then old(jobs) else old(jobs) + 1
      ensures log == old(log)
    {
      if running {
        return;
      }
      jobs := jobs + 1;
      running := true;
    }

    /** `stop`: shut the scheduler down if running. */
    method Stop()
      modifies this
      ensures !running
      ensures jobs == old(jobs) && log == old(log)
    {
      if running {
        running := false;
      }
    }

    /** One pass of the inner loop of `_tick`: send reminder `r` for `e`
        if it is due and not recorded, and record it once the send went
        through. `p` is the tick so far; `log0` and `outbox0` are the log and
        outbox before the tick. */
    method TryRemind(e: EventResponse, r: Reminder, now: int,
                     ghost p: Pass, ghost n0: nat, ghost log0: seq<Notice>, ghost outbox0: seq<string>)
      returns (ghost q: Pass)
      requires store.Valid()
      requires store.state == p.state && sms.attempts == n0 + |p.tried|
      requires log == log0 + p.sent && sms.outbox == outbox0 + Bodies(p.sent)
      modifies this`log, store, sms
      ensures store.Valid()
      ensures q == Remind(p, e, r, now, sms.failing, n0)
      ensures store.state == q.state && sms.attempts == n0 + |q.tried|
      ensures log == log0 + q.sent && sms.outbox == outbox0 + Bodies(q.sent)
    {
      q := p;
      if now >= e.startTime.instant - r.lead {
        var version := VersionKey(e);
        var already := store.HasSent(e.id, r.kind, version);
        if !already {
          q := Deliver(e, r, now, p, n0, log0, outbox0);
        }
      }
    }

    /** The send of a due, unrecorded reminder, and its record when the
        send went through. */
    method Deliver(e: EventResponse, r: Reminder, ghost now: int,
                   ghost p: Pass, ghost n0: nat, ghost log0: seq<Notice>, ghost outbox0: seq<string>)
      returns (ghost q: Pass)
      requires Due(e, r, now) && !HasSentIn(p.state, e.id, r.kind, VersionKey(e))
      requires store.Valid()
      requires store.state == p.state && sms.attempts == n0 + |p.tried|
      requires log == log0 + p.sent && sms.outbox == outbox0 + Bodies(p.sent)
      modifies this`log, store, sms
      ensures store.Valid()
      ensures q == Remind(p, e, r, now, sms.failing, n0)
      ensures store.state == q.state && sms.attempts == n0 + |q.tried|
      ensures log == log0 + q.sent && sms.outbox == outbox0 + Bodies(q.sent)
    {
      var body := Render(r, e.summary);
      var ok := sms.Send(body);
      q := Settle(e, r, now, ok, p, n0, log0, outbox0);
    }

    /** What follows the send: a delivered reminder is recorded with
        `mark_sent` and logged; a failed one is only counted as tried. */
    method Settle(e: EventResponse, r: Reminder, ghost now: int, ok: bool,
                  ghost p: Pass, ghost n0: nat, ghost log0: seq<Notice>, ghost outbox0: seq<string>)
      returns (ghost q: Pass)
      requires Due(e, r, now) && !HasSentIn(p.state, e.id, r.kind, VersionKey(e))
      requires store.Valid()
      requires store.state == p.state && sms.attempts == n0 + |p.tried| + 1
      requires ok <==> n0 + |p.tried| !in sms.failing
      requires log == log0 + p.sent
      requires sms.outbox == outbox0 + Bodies(p.sent) + (if ok then [NoticeFor(e, r).body] else [])
      modifies this`log, store
      ensures store.Valid()
      ensures q == Remind(p, e, r, now, sms.failing, n0)
      ensures store.state == q.state && sms.attempts == n0 + |q.tried|
      ensures log == log0 + q.sent && sms.outbox == outbox0 + Bodies(q.sent)
    {
      ghost var note := NoticeFor(e, r);
      if ok {
        RemindDelivers(p, e, r, now, sms.failing, n0);
        q := Pass(MarkSentIn(p.state, e.id, r.kind, VersionKey(e)), p.tried + [note], p.sent + [note]);
        BodiesAppend(p.sent, note);
        Record(e, r, note);
      } else {
        RemindFails(p, e, r, now, sms.failing, n0);
        q := Pass(p.state, p.tried + [note], p.sent);
        assert sms.outbox == outbox0 + Bodies(p.sent);
      }
    }

    /** A delivered reminder: `mark_sent`, and the delivery logged. */
    method Record(e: EventResponse, r: Reminder, ghost note: Notice)
      requires note == NoticeFor(e, r)
      requires store.Valid()
      modifies this`log, store
      ensures store.Valid()
      ensures store.state == MarkSentIn(old(store.state), e.id, r.kind, VersionKey(e))
      ensures log == old(log) + [NoticeFor(e, r)]
    {
      store.MarkSent(e.id, r.kind, VersionKey(e));
      log := log + [note];
    }

    /** The inner loop of `_tick`: the schedule, in order, for one event. */
    method RemindEvent(e: EventResponse, now: int,
                       ghost p: Pass, ghost n0: nat, ghost log0: seq<Notice>, ghost outbox0: seq<string>)
      returns (ghost q: Pass)
      requires store.Valid()
      requires store.state == p.state && sms.attempts == n0 + |p.tried|
      requires log == log0 + p.sent && sms.outbox == outbox0 + Bodies(p.sent)
      modifies this`log, store, sms
      ensures store.Valid()
      ensures q == RemindAll(p, e, Schedule, now, sms.failing, n0)
      ensures store.state == q.state && sms.attempts == n0 + |q.tried|
      ensures log == log0 + q.sent && sms.outbox == outbox0 + Bodies(q.sent)
    {
      q := p;
      for j := 0 to |Schedule|
        invariant store.Valid()
        invariant q == RemindAll(p, e, Schedule[..j], now, sms.failing, n0)
        invariant store.state == q.state && sms.attempts == n0 + |q.tried|
        invariant log == log0 + q.sent && sms.outbox == outbox0 + Bodies(q.sent)
      {
        assert Schedule[..j + 1][..j] == Schedule[..j];
        q := TryRemind(e, Schedule[j], now, q, n0, log0, outbox0);
      }
      assert Schedule[..|Schedule|] == Schedule;
    }

    /** The cleanup loop of `_tick`. */
    method Sweep(events: seq<EventResponse>, now: int)
      requires store.Valid()
      modifies store
      ensures store.Valid()
      ensures store.state == Cleanup(old(store.state), events, now)
    {
      for i := 0 to |events|
        invariant store.Valid()
        invariant store.state == Cleanup(old(store.state), events[..i], now)
      {
        if events[i].endTime.instant < now - Hour {
          store.ClearEvent(events[i].id);
        }
        assert events[..i + 1][..i] == events[..i];
      }
      assert events[..|events|] == events;
    }

    /** `_tick`. `fetched` is what `list_upcoming` returned, `None` when it
        raised; `now` is the current instant. */
    method Tick(fetched: Option<seq<EventResponse>>, now: int)
      requires store.Valid()
      modifies this`log, store, sms
      ensures store.Valid()
      ensures fetched.None? ==> unchanged(store, sms) && log == old(log)
      ensures fetched.Some? ==>
                var out := TickSpec(old(store.state), fetched.value, now, sms.failing, old(sms.attempts));
                && store.state == out.state
                && log == old(log) + out.sent
                && sms.attempts == old(sms.attempts) + |out.tried|
                && sms.outbox == old(sms.outbox) + Bodies(out.sent)
      ensures KnownKinds(old(store.state), ScheduleKinds) ==> KnownKinds(store.state, ScheduleKinds)
    {
      if fetched.None? {
        return;
      }
      var events := fetched.value;
      ghost var start := Pass(store.state, [], []);
      ghost var n0 := sms.attempts;
      ghost var p := start;
      for i := 0 to |events|
        invariant store.Valid()
        invariant p == SendPass(start, events[..i], now, sms.failing, n0)
        invariant store.state == p.state && sms.attempts == n0 + |p.tried|
        invariant log == old(log) + p.sent && sms.outbox == old(sms.outbox) + Bodies(p.sent)
      {
        assert events[..i + 1][..i] == events[..i];
        p := RemindEvent(events[i], now, p, n0, old(log), old(sms.outbox));
      }
      assert events[..|events|] == events;
      Sweep(events, now);
      if KnownKinds(start.state, ScheduleKinds) {
        TickKeepsKnownKinds(start.state, events, now, sms.failing, n0);
      }
    }
  }
}
