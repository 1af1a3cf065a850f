/**
 The huddle lifecycle: joining, leaving, LiveKit webhooks and recording, each handler running atomically. Neither
 table has a unique index, so that one huddle per channel and one row per participant are things to be proved.
 */
module HuddleLifecycle {
  import opened Wrappers

  type Id = nat

  datatype Huddle = Huddle(channel: nat, isActive: bool, endedAt: Option<nat>,
                           egressId: Option<nat>, isRecording: bool, videoUrl: Option<string>)
  datatype Participant = Participant(huddle: Id, user: nat, leftAt: Option<nat>)
  datatype State = State(huddles: map<Id, Huddle>, rows: map<Id, Participant>)

  /**
   One handled request. `found` and `row` are what the queries returned: any matching row, or None if there is none.
   The ids `newHuddle` and `newRow` are generated. Foreign calls succeed with a value or fail with None.
   */
  datatype Event =
    | Join(channel: nat, user: nat, found: Option<Id>, newHuddle: Id, row: Option<Id>, newRow: Id)
    | Leave(huddle: Id, user: nat, row: Option<Id>, now: nat)
    | RoomStarted(huddle: Id)
    | ParticipantJoined(huddle: Id, user: nat, row: Option<Id>, newRow: Id)
    | ParticipantLeft(huddle: Id, user: nat, row: Option<Id>, now: nat)
    | RoomFinished(huddle: Id, now: nat)
    | StartRecording(huddle: Id, egress: Option<nat>)
    | StopRecording(huddle: Id, video: Option<string>)

  predicate ActiveIn(huddles: map<Id, Huddle>, h: Id, channel: nat) {
    h in huddles && huddles[h].isActive && huddles[h].channel == channel
  }

  predicate RowOf(rows: map<Id, Participant>, r: Id, h: Id, u: nat) {
    r in rows && rows[r].huddle == h && rows[r].user == u
  }

  predicate PresentIn(rows: map<Id, Participant>, r: Id, h: Id) {
    r in rows && rows[r].huddle == h && rows[r].leftAt.None?
  }

  predicate Empty(rows: map<Id, Participant>, h: Id) {
    forall r :: r in rows ==> !PresentIn(rows, r, h)
  }

  /** `found` is a possible answer of the query for the channel's active huddle. */
  predicate FindsHuddle(s: State, channel: nat, found: Option<Id>) {
    match found
    case Some(h) => ActiveIn(s.huddles, h, channel)
    case None => forall h :: h in s.huddles ==> !ActiveIn(s.huddles, h, channel)
  }

  /** `row` is a possible answer of the query for the participant's row, optionally only one that has not left. */
  predicate FindsRow(s: State, h: Id, u: nat, onlyPresent: bool, row: Option<Id>) {
    match row
    case Some(r) => RowOf(s.rows, r, h, u) && (onlyPresent ==> s.rows[r].leftAt.None?)
    case None => forall r :: r in s.rows && RowOf(s.rows, r, h, u) ==> onlyPresent && s.rows[r].leftAt.Some?
  }

  /** A found row comes back, otherwise a new one is inserted. */
  function Enter(rows: map<Id, Participant>, h: Id, u: nat, row: Option<Id>, newRow: Id): map<Id, Participant> {
    if row.Some? && row.value in rows then rows[row.value := rows[row.value].(leftAt := None)]
    else rows[newRow := Participant(h, u, None)]
  }

  function Exit(rows: map<Id, Participant>, row: Option<Id>, now: nat): map<Id, Participant> {
    if row.Some? && row.value in rows then rows[row.value := rows[row.value].(leftAt := Some(now))] else rows
  }

  function ExitAll(rows: map<Id, Participant>, h: Id, now: nat): map<Id, Participant> {
    map r | r in rows :: if PresentIn(rows, r, h) then rows[r].(leftAt := Some(now)) else rows[r]
  }

  function Ended(h: Huddle, now: nat): Huddle {
    h.(isActive := false, endedAt := Some(now))
  }

  function StepJoin(s: State, channel: nat, u: nat, found: Option<Id>, newHuddle: Id, row: Option<Id>,
                    newRow: Id): Option<State> {
    if !FindsHuddle(s, channel, found) || newHuddle in s.huddles || newRow in s.rows then None else
    var h := if found.Some? then found.value else newHuddle;
    if !FindsRow(s, h, u, false, row) then None else
    var huddles :=
      if found.Some? then s.huddles else s.huddles[newHuddle := Huddle(channel, true, None, None, false, None)];
    Some(State(huddles, Enter(s.rows, h, u, row, newRow)))
  }

  function StepLeave(s: State, h: Id, u: nat, row: Option<Id>, now: nat): Option<State> {
    if h !in s.huddles then Some(s)
    else if !FindsRow(s, h, u, true, row) then None
    else
      var rows := Exit(s.rows, row, now);
      var ends := Empty(rows, h) && s.huddles[h].isActive;
      Some(State(if ends then s.huddles[h := Ended(s.huddles[h], now)] else s.huddles, rows))
  }

  function Step(s: State, e: Event): Option<State> {
    match e
    case Join(channel, u, found, newHuddle, row, newRow) => StepJoin(s, channel, u, found, newHuddle, row, newRow)
    case Leave(h, u, row, now) => StepLeave(s, h, u, row, now)
    case RoomStarted(h) =>
      if h !in s.huddles then Some(s) else Some(s.(huddles := s.huddles[h := s.huddles[h].(isActive := true)]))
    case ParticipantJoined(h, u, row, newRow) =>
      if h !in s.huddles then Some(s)
      else if !FindsRow(s, h, u, false, row) || newRow in s.rows then None
      else Some(s.(rows := Enter(s.rows, h, u, row, newRow)))
    case ParticipantLeft(h, u, row, now) =>
      if h !in s.huddles then Some(s)
      else if !FindsRow(s, h, u, true, row) then None
      else Some(s.(rows := Exit(s.rows, row, now)))
    case RoomFinished(h, now) =>
      if h !in s.huddles then Some(s)
      else Some(State(s.huddles[h := Ended(s.huddles[h], now)], ExitAll(s.rows, h, now)))
    case StartRecording(h, egress) =>
      if h !in s.huddles || !s.huddles[h].isActive || egress.None? then Some(s)
      else Some(s.(huddles := s.huddles[h := s.huddles[h].(egressId := egress, isRecording := true)]))
    case StopRecording(h, video) =>
      if h !in s.huddles || s.huddles[h].egressId.None? || video.None? then Some(s)
      else Some(s.(huddles := s.huddles[h := s.huddles[h].(egressId := None, isRecording := false, videoUrl := video)]))
  }

  function Exec(s: State, events: seq<Event>): Option<State>
    decreases |events|
  {
    if events == [] then Some(s) else
    match Step(s, events[0])
    case None => None
    case Some(s') => Exec(s', events[1..])
  }

  // ---------- what arbitrary webhooks cannot break ----------

  ghost predicate SameSeat(rows: map<Id, Participant>, r: Id, q: Id) {
    r in rows && q in rows && rows[r].huddle == rows[q].huddle && rows[r].user == rows[q].user
  }

  ghost predicate Sound(s: State) {
    && (forall r, q :: SameSeat(s.rows, r, q) ==> r == q)
    && (forall r :: r in s.rows ==> s.rows[r].huddle in s.huddles)
    && (forall h :: h in s.huddles ==> (!s.huddles[h].isActive ==> s.huddles[h].endedAt.Some?))
    && (forall h :: h in s.huddles ==> (s.huddles[h].egressId.Some? <==> s.huddles[h].isRecording))
  }

  lemma SeatsKept(s: State, rows: map<Id, Participant>)
    requires Sound(s)
    requires forall r, q :: SameSeat(rows, r, q) && r in s.rows && q in s.rows ==> SameSeat(s.rows, r, q)
    requires forall r, q :: SameSeat(rows, r, q) && r !in s.rows ==> r == q
    ensures forall r, q :: SameSeat(rows, r, q) ==> r == q
  {
    forall r, q | SameSeat(rows, r, q) ensures r == q {
      assert SameSeat(rows, q, r);
    }
  }

  lemma EnterKeepsSeats(s: State, h: Id, u: nat, row: Option<Id>, newRow: Id)
    requires Sound(s) && FindsRow(s, h, u, false, row) && newRow !in s.rows
    ensures forall r, q :: SameSeat(Enter(s.rows, h, u, row, newRow), r, q) ==> r == q
  {
    var rows := Enter(s.rows, h, u, row, newRow);
    forall r, q | SameSeat(rows, r, q) && r in s.rows && q in s.rows ensures SameSeat(s.rows, r, q) {
    }
    assert row.None? ==> forall q :: q in s.rows ==> !RowOf(s.rows, q, h, u);
    forall r, q | SameSeat(rows, r, q) && r !in s.rows ensures r == q {
    }
    SeatsKept(s, rows);
  }

  lemma StepKeepsSound(s: State, e: Event, s': State)
    requires Sound(s) && Step(s, e) == Some(s')
    ensures Sound(s')
  {
    if e.Join? {
      EnterKeepsSeats(s, if e.found.Some? then e.found.value else e.newHuddle, e.user, e.row, e.newRow);
    } else if e.ParticipantJoined? && e.huddle in s.huddles {
      EnterKeepsSeats(s, e.huddle, e.user, e.row, e.newRow);
    } else {
      forall r, q | SameSeat(s'.rows, r, q) && r in s.rows && q in s.rows ensures SameSeat(s.rows, r, q) {
      }
      SeatsKept(s, s'.rows);
    }
  }

  /** Whatever webhooks arrive, the tables stay sound in every run; so they are in every run from the empty tables. */
  lemma {:induction false} RunsAreSound(s: State, events: seq<Event>, s': State)
    requires Sound(s) && Exec(s, events) == Some(s')
    ensures Sound(s')
    decreases |events|
  {
    if events != [] {
      var m := Step(s, events[0]).value;
      StepKeepsSound(s, events[0], m);
      RunsAreSound(m, events[1..], s');
    }
  }

  // ---------- what the webhooks do ----------

  /** Rows of anyone but this participant of this huddle stay as they are, and nobody else gets a row. */
  ghost predicate OthersStay(s: State, s': State, h: Id, u: nat) {
    && (forall r :: r in s.rows && !RowOf(s.rows, r, h, u) ==> r in s'.rows && s'.rows[r] == s.rows[r])
    && (forall r :: r in s'.rows && r !in s.rows ==> RowOf(s'.rows, r, h, u))
  }

  lemma UnknownHuddleIsIgnored(s: State, e: Event, s': State)
    requires Step(s, e) == Some(s') && !e.Join? && e.huddle !in s.huddles
    ensures s' == s
  {
  }

  lemma RoomStartedEffects(s: State, h: Id)
    requires h in s.huddles
    ensures Step(s, RoomStarted(h)).Some?
    ensures
      var s' := Step(s, RoomStarted(h)).value;
      s'.rows == s.rows && s'.huddles == s.huddles[h := s.huddles[h].(isActive := true)]
  {
  }

  lemma ParticipantJoinedEffects(s: State, h: Id, u: nat, row: Option<Id>, newRow: Id, s': State)
    requires h in s.huddles && Step(s, ParticipantJoined(h, u, row, newRow)) == Some(s')
    ensures s'.huddles == s.huddles && OthersStay(s, s', h, u)
    ensures exists r :: r in s'.rows && PresentIn(s'.rows, r, h) && s'.rows[r].user == u
  {
    var r := if row.Some? then row.value else newRow;
    assert r in s'.rows && PresentIn(s'.rows, r, h) && s'.rows[r].user == u;
  }

  lemma ParticipantLeftEffects(s: State, h: Id, u: nat, row: Option<Id>, now: nat, s': State)
    requires Sound(s) && h in s.huddles && Step(s, ParticipantLeft(h, u, row, now)) == Some(s')
    ensures s'.huddles == s.huddles && OthersStay(s, s', h, u) && s'.rows.Keys == s.rows.Keys
    ensures forall r :: r in s.rows && RowOf(s.rows, r, h, u) ==>
      s'.rows[r] == if s.rows[r].leftAt.None? then Participant(h, u, Some(now)) else s.rows[r]
  {
    forall r | r in s.rows && RowOf(s.rows, r, h, u)
      ensures s'.rows[r] == if s.rows[r].leftAt.None? then Participant(h, u, Some(now)) else s.rows[r]
    {
      assert row.Some? ==> SameSeat(s.rows, r, row.value);
    }
  }

  lemma RoomFinishedEffects(s: State, h: Id, now: nat)
    requires h in s.huddles
    ensures Step(s, RoomFinished(h, now)).Some?
    ensures
      var s' := Step(s, RoomFinished(h, now)).value;
      && s'.huddles == s.huddles[h := s.huddles[h].(isActive := false, endedAt := Some(now))]
      && s'.rows.Keys == s.rows.Keys
      && forall r :: r in s.rows ==>
           s'.rows[r] == if s.rows[r].huddle == h && s.rows[r].leftAt.None? then s.rows[r].(leftAt := Some(now))
                         else s.rows[r]
  {
  }

  lemma RecordingEffects(s: State, h: Id, egress: nat, video: string)
    requires h in s.huddles && s.huddles[h].isActive
    ensures Step(s, StartRecording(h, Some(egress))).Some?
    ensures
      var s' := Step(s, StartRecording(h, Some(egress))).value;
      var h' := s.huddles[h].(egressId := None, isRecording := false, videoUrl := Some(video));
      && s' == s.(huddles := s.huddles[h := s.huddles[h].(egressId := Some(egress), isRecording := true)])
      && Step(s', StopRecording(h, Some(video))) == Some(s.(huddles := s.huddles[h := h']))
  {
    var h' := s.huddles[h].(egressId := None, isRecording := false, videoUrl := Some(video));
    assert s.huddles[h := s.huddles[h].(egressId := Some(egress), isRecording := true)][h := h'] == s.huddles[h := h'];
  }

  // ---------- recordings ----------

  ghost predicate Records(s: State, h: Id, egress: nat) {
    h in s.huddles && s.huddles[h].egressId == Some(egress)
  }

  /** A successful start of another recorder. */
  predicate StartsAnother(s: State, e: Event, h: Id, egress: nat) {
    && e.StartRecording? && e.huddle == h && h in s.huddles && s.huddles[h].isActive
    && e.egress.Some? && e.egress.value != egress
  }

  predicate Stops(e: Event, h: Id) {
    e.StopRecording? && e.huddle == h && e.video.Some?
  }

  /** A huddle gives up a running recorder by stopping it, and loses it, still running, by starting another one. */
  lemma LosesRecordingIff(s: State, e: Event, s': State, h: Id, egress: nat)
    requires Step(s, e) == Some(s') && Records(s, h, egress)
    ensures !Records(s', h, egress) <==> StartsAnother(s, e, h, egress) || Stops(e, h)
    ensures h in s'.huddles && (StartsAnother(s, e, h, egress) <==> s'.huddles[h].egressId !in {Some(egress), None})
  {
  }

  ghost predicate Restarts(events: seq<Event>, egress: nat) {
    exists i :: 0 <= i < |events| && events[i].StartRecording? && events[i].egress == Some(egress)
  }

  /** A lost recorder, whose id is not handed out again, is never what a huddle would stop. */
  lemma {:induction false} LostRecordingStaysLost(s: State, events: seq<Event>, s': State, egress: nat)
    requires Exec(s, events) == Some(s') && !Restarts(events, egress)
    requires forall h :: !Records(s, h, egress)
    ensures forall h :: !Records(s', h, egress)
    decreases |events|
  {
    if events != [] {
      var m := Step(s, events[0]).value;
      assert !(events[0].StartRecording? && events[0].egress == Some(egress));
      NoNewRecording(s, events[0], m, egress);
      assert forall i :: 0 <= i < |events[1..]| ==> events[1..][i] == events[i + 1];
      LostRecordingStaysLost(m, events[1..], s', egress);
    }
  }

  lemma NoNewRecording(s: State, e: Event, s': State, egress: nat)
    requires Step(s, e) == Some(s') && !(e.StartRecording? && e.egress == Some(egress))
    requires forall h :: !Records(s, h, egress)
    ensures forall h :: !Records(s', h, egress)
  {
    forall h ensures !Records(s', h, egress) {
      assert !Records(s, h, egress);
    }
  }

  /** Joining and starting twice loses the first recorder. */
  lemma LostRecordingIsReachable(channel: nat, u: nat) returns (events: seq<Event>, s: State)
    ensures Exec(State(map[], map[]), events) == Some(s) && Records(s, 0, 1)
    ensures StartsAnother(s, StartRecording(0, Some(2)), 0, 1)
  {
    events := [Join(channel, u, None, 0, None, 0), StartRecording(0, Some(1))];
    var h := Huddle(channel, true, None, None, false, None);
    var s1 := State(map[0 := h], map[0 := Participant(0, u, None)]);
    s := State(s1.huddles[0 := h.(egressId := Some(1), isRecording := true)], s1.rows);
    assert Step(State(map[], map[]), events[0]) == Some(s1);
    assert Step(s1, events[1]) == Some(s);
    assert events[1..][1..] == [];
    assert Exec(s1, events[1..]) == Some(s);
  }

  // ---------- one huddle per channel, nobody left behind ----------

  ghost predicate Rivals(huddles: map<Id, Huddle>, h: Id, g: Id) {
    h in huddles && g in huddles && huddles[h].isActive && huddles[g].isActive &&
      huddles[h].channel == huddles[g].channel
  }

  /** At most one active huddle per channel, and whoever is present is in an active huddle. */
  ghost predicate Orderly(s: State) {
    && Sound(s)
    && (forall h, g :: Rivals(s.huddles, h, g) ==> h == g)
    && (forall r :: r in s.rows && s.rows[r].leftAt.None? ==> s.huddles[s.rows[r].huddle].isActive)
  }

  /** The two webhooks that LiveKit may deliver late, and when they are harmless. */
  ghost predicate Timely(s: State, e: Event) {
    match e
    case RoomStarted(h) => h in s.huddles ==> s.huddles[h].isActive || FindsHuddle(s, s.huddles[h].channel, None)
    case ParticipantJoined(h, _, _, _) => h in s.huddles ==> s.huddles[h].isActive
    case _ => true
  }

  lemma OtherStepsKeepOrderly(s: State, e: Event, s': State)
    requires Orderly(s) && Step(s, e) == Some(s') && !e.RoomStarted? && !e.ParticipantJoined?
    ensures Orderly(s')
  {
    StepKeepsSound(s, e, s');
    if e.Join? && e.found.None? {
      assert forall h :: h in s.huddles ==> !ActiveIn(s.huddles, h, e.channel);
    }
    forall h, g | Rivals(s'.huddles, h, g) ensures h == g {
      if h in s.huddles && g in s.huddles {
        assert Rivals(s.huddles, h, g);
      }
    }
    forall r | r in s'.rows && s'.rows[r].leftAt.None? ensures s'.huddles[s'.rows[r].huddle].isActive {
      if e.Leave? && e.huddle in s.huddles {
        assert PresentIn(s'.rows, r, s'.rows[r].huddle);
      }
    }
  }

  /** A step keeps order if and only if it is timely: exactly the late webhooks break it. */
  lemma OrderlyIffTimely(s: State, e: Event, s': State)
    requires Orderly(s) && Step(s, e) == Some(s')
    ensures Orderly(s') <==> Timely(s, e)
  {
    StepKeepsSound(s, e, s');
    match e
    case RoomStarted(h) =>
      if h in s.huddles {
        if Timely(s, e) {
          forall a, b | Rivals(s'.huddles, a, b) ensures a == b {
            assert a != h && b != h ==> Rivals(s.huddles, a, b);
            if !s.huddles[h].isActive {
              assert !ActiveIn(s.huddles, a, s.huddles[h].channel) && !ActiveIn(s.huddles, b, s.huddles[h].channel);
            } else {
              assert Rivals(s.huddles, a, b);
            }
          }
        } else {
          var g :| g in s.huddles && ActiveIn(s.huddles, g, s.huddles[h].channel);
          assert Rivals(s'.huddles, h, g);
        }
      }
    case ParticipantJoined(h, u, row, newRow) =>
      if h in s.huddles {
        var r := if row.Some? then row.value else newRow;
        assert r in s'.rows && s'.rows[r].leftAt.None? && s'.rows[r].huddle == h;
      }
    case _ => OtherStepsKeepOrderly(s, e, s');
  }

  /** Joining, leaving and joining again leads to a state in which both webhooks for the first huddle are late. */
  lemma LateWebhooksAreReachable(channel: nat, u: nat) returns (events: seq<Event>, s: State)
    ensures Exec(State(map[], map[]), events) == Some(s) && Orderly(s)
    ensures !Timely(s, RoomStarted(0)) && Step(s, RoomStarted(0)).Some?
    ensures !Timely(s, ParticipantJoined(0, u, Some(0), 2)) && Step(s, ParticipantJoined(0, u, Some(0), 2)).Some?
  {
    events := [Join(channel, u, None, 0, None, 0), Leave(0, u, Some(0), 1), Join(channel, u, None, 1, None, 1)];
    var h, left := Huddle(channel, true, None, None, false, None), Participant(0, u, Some(1));
    var s1 := State(map[0 := h], map[0 := Participant(0, u, None)]);
    var s2 := State(map[0 := Ended(h, 1)], map[0 := left]);
    s := State(s2.huddles[1 := h], s2.rows[1 := Participant(1, u, None)]);
    assert Step(State(map[], map[]), events[0]) == Some(s1);
    LastLeaves(s1, u, h, s2);
    NextJoins(channel, u, h, s2, s);
    assert events[1..][1..][1..] == [];
    assert Exec(s2, events[1..][1..]) == Some(s);
    assert Exec(s1, events[1..]) == Some(s);
    assert ActiveIn(s.huddles, 1, channel);
  }

  lemma NextJoins(channel: nat, u: nat, h: Huddle, s: State, s': State)
    requires h == Huddle(channel, true, None, None, false, None)
    requires s == State(map[0 := Ended(h, 1)], map[0 := Participant(0, u, Some(1))])
    requires s' == State(s.huddles[1 := h], s.rows[1 := Participant(1, u, None)])
    ensures Step(s, Join(channel, u, None, 1, None, 1)) == Some(s') && Orderly(s')
  {
    assert forall g :: g in s.huddles ==> !ActiveIn(s.huddles, g, channel);
  }

  lemma LastLeaves(s: State, u: nat, h: Huddle, s': State)
    requires h.isActive && s == State(map[0 := h], map[0 := Participant(0, u, None)])
    requires s' == State(map[0 := Ended(h, 1)], map[0 := Participant(0, u, Some(1))])
    ensures Step(s, Leave(0, u, Some(0), 1)) == Some(s')
  {
    var rows := Exit(s.rows, Some(0), 1);
    assert rows == s'.rows;
    assert Empty(rows, 0);
    assert s.huddles[0 := Ended(h, 1)] == s'.huddles;
  }

  /** A huddle comes back to life in one way only: a `room_started` for a huddle that has ended. */
  lemma ReactivatedOnlyByRoomStarted(s: State, e: Event, s': State, h: Id)
    requires Step(s, e) == Some(s') && h in s.huddles && !s.huddles[h].isActive
    ensures h in s'.huddles && (s'.huddles[h].isActive <==> e == RoomStarted(h))
  {
  }

  /** Every webhook of a run reaches an active huddle. */
  ghost predicate AllInTime(s: State, events: seq<Event>)
    decreases |events|
  {
    events == [] ||
    (&& (events[0].RoomStarted? || events[0].ParticipantJoined? ==>
           events[0].huddle in s.huddles && s.huddles[events[0].huddle].isActive)
     && (Step(s, events[0]).Some? ==> AllInTime(Step(s, events[0]).value, events[1..])))
  }

  lemma {:induction false} RunsInTimeAreOrderly(s: State, events: seq<Event>, s': State)
    requires Orderly(s) && AllInTime(s, events) && Exec(s, events) == Some(s')
    ensures Orderly(s')
    ensures forall h :: h in s.huddles && !s.huddles[h].isActive ==> h in s'.huddles && !s'.huddles[h].isActive
    decreases |events|
  {
    if events != [] {
      var m := Step(s, events[0]).value;
      OrderlyIffTimely(s, events[0], m);
      forall h | h in s.huddles && !s.huddles[h].isActive ensures h in m.huddles && !m.huddles[h].isActive {
        ReactivatedOnlyByRoomStarted(s, events[0], m, h);
      }
      RunsInTimeAreOrderly(m, events[1..], s');
    }
  }

  /** Leaving ends an active huddle exactly when it was the last participant who left. */
  lemma LeaveEndsEmptyHuddle(s: State, h: Id, u: nat, row: Option<Id>, now: nat, s': State)
    requires Sound(s) && h in s.huddles && s.huddles[h].isActive && StepLeave(s, h, u, row, now) == Some(s')
    ensures s'.huddles[h].isActive <==> exists r :: r in s.rows && PresentIn(s.rows, r, h) && s.rows[r].user != u
    ensures forall r :: r in s'.rows && PresentIn(s'.rows, r, h) ==> s'.rows[r].user != u
  {
    forall r | r in s.rows && RowOf(s.rows, r, h, u) ensures row == Some(r) || s.rows[r].leftAt.Some? {
      if row.Some? {
        assert SameSeat(s.rows, r, row.value);
      }
    }
    forall r | r in s.rows ensures PresentIn(s'.rows, r, h) <==> PresentIn(s.rows, r, h) && s.rows[r].user != u {
      assert PresentIn(s.rows, r, h) && s.rows[r].user == u ==> RowOf(s.rows, r, h, u);
    }
  }
}
