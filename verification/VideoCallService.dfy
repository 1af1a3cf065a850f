/** The huddle service over its two tables. Every handler is one step of the huddle state machine. */
module VideoCallService {
  import opened Wrappers
  import opened HuddleLifecycle

  class VideoCallService {
    var huddles: map<Id, Huddle>
    var rows: map<Id, Participant>

    ghost function Snapshot(): State
      reads this
    {
      State(huddles, rows)
    }

    constructor ()
      ensures Snapshot() == State(map[], map[])
    {
      huddles, rows := map[], map[];
    }

    /** `findOne` on the participant table. */
    method FindRow(h: Id, u: nat, onlyPresent: bool) returns (row: Option<Id>)
      ensures FindsRow(Snapshot(), h, u, onlyPresent, row)
    {
      row := None;
      if r :| r in rows && RowOf(rows, r, h, u) && (onlyPresent ==> rows[r].leftAt.None?) {
        row := Some(r);
      }
    }

    /** A returning participant keeps the row, a new one gets one. */
    method EnterHuddle(h: Id, u: nat, newRow: Id) returns (row: Option<Id>)
      requires newRow !in rows
      modifies this`rows
      ensures FindsRow(old(Snapshot()), h, u, false, row)
      ensures rows == Enter(old(rows), h, u, row, newRow)
      ensures rows == old(rows)[(if row.Some? then row.value else newRow) := Participant(h, u, None)]
    {
      row := FindRow(h, u, false);
      if row.None? {
        rows := rows[newRow := Participant(h, u, None)];
      } else {
        rows := rows[row.value := rows[row.value].(leftAt := None)];
      }
    }

    method LeaveRow(h: Id, u: nat, now: nat) returns (row: Option<Id>)
      modifies this`rows
      ensures FindsRow(old(Snapshot()), h, u, true, row)
      ensures rows == Exit(old(rows), row, now)
      ensures rows == if row.Some? then old(rows)[row.value := Participant(h, u, Some(now))] else old(rows)
    {
      row := FindRow(h, u, true);
      if row.Some? {
        rows := rows[row.value := rows[row.value].(leftAt := Some(now))];
      }
    }

    /** `newHuddle` and `newRow` are the ids the database would generate. */
    method JoinHuddle(channel: nat, u: nat, newHuddle: Id, newRow: Id) returns (h: Id, ghost e: Event)
      requires newHuddle !in huddles && newRow !in rows
      modifies this
      ensures e.Join? && e.channel == channel && e.user == u && Step(old(Snapshot()), e) == Some(Snapshot())
      ensures rows == old(rows)[(if e.row.Some? then e.row.value else newRow) := Participant(h, u, None)]
      ensures huddles == old(huddles) || (huddles == old(huddles)[h := Huddle(channel, true, None, None, false, None)]
                                          && forall g :: g in old(huddles) ==> !ActiveIn(old(huddles), g, channel))
      ensures ActiveIn(huddles, h, channel) && exists r :: PresentIn(rows, r, h) && rows[r].user == u
    {
      ghost var found: Option<Id> := None;
      if g :| g in huddles && ActiveIn(huddles, g, channel) {
        h := g;
        found := Some(g);
      } else {
        h := newHuddle;
        huddles := huddles[h := Huddle(channel, true, None, None, false, None)];
      }
      var row := EnterHuddle(h, u, newRow);
      e := Join(channel, u, found, newHuddle, row, newRow);
      assert PresentIn(rows, if row.Some? then row.value else newRow, h);
    }

    method LeaveHuddle(h: Id, u: nat, now: nat) returns (success: bool, ghost e: Event)
      modifies this
      ensures e.Leave? && e.huddle == h && e.user == u && Step(old(Snapshot()), e) == Some(Snapshot())
      ensures success <==> h in old(huddles)
      ensures rows ==
        if success && e.row.Some? then old(rows)[e.row.value := Participant(h, u, Some(now))] else old(rows)
      ensures huddles ==
        if success && old(huddles)[h].isActive && Empty(rows, h)
        then old(huddles)[h := old(huddles)[h].(isActive := false, endedAt := Some(now))] else old(huddles)
    {
      e := Leave(h, u, None, now);
      if h !in huddles {
        return false, e;
      }
      var row := LeaveRow(h, u, now);
      e := Leave(h, u, row, now);
      var present := set r | r in rows && PresentIn(rows, r, h);
      var activeCount := |present|;
      assert Empty(rows, h) <==> present == {} by {
        assert forall r :: r in present <==> r in rows && PresentIn(rows, r, h);
      }
      if activeCount == 0 && huddles[h].isActive {
        huddles := huddles[h := huddles[h].(isActive := false, endedAt := Some(now))];
      }
      success := true;
    }

    method OnRoomStarted(h: Id)
      modifies this`huddles
      ensures Step(old(Snapshot()), RoomStarted(h)) == Some(Snapshot())
      ensures h in old(huddles) ==> huddles == old(huddles)[h := old(huddles)[h].(isActive := true)]
    {
      if h in huddles {
        huddles := huddles[h := huddles[h].(isActive := true)];
      }
    }

    method OnParticipantJoined(h: Id, u: nat, newRow: Id) returns (ghost e: Event)
      requires newRow !in rows
      modifies this`rows
      ensures e.ParticipantJoined? && e.huddle == h && e.user == u && Step(old(Snapshot()), e) == Some(Snapshot())
      ensures h in huddles ==>
        rows == old(rows)[(if e.row.Some? then e.row.value else newRow) := Participant(h, u, None)]
    {
      e := ParticipantJoined(h, u, None, newRow);
      if h in huddles {
        var row := EnterHuddle(h, u, newRow);
        e := ParticipantJoined(h, u, row, newRow);
      }
    }

    method OnParticipantLeft(h: Id, u: nat, now: nat) returns (ghost e: Event)
      modifies this`rows
      ensures e.ParticipantLeft? && e.huddle == h && e.user == u && Step(old(Snapshot()), e) == Some(Snapshot())
      ensures h in huddles ==> FindsRow(old(Snapshot()), h, u, true, e.row)
      ensures h in huddles && e.row.Some? ==> rows == old(rows)[e.row.value := Participant(h, u, Some(now))]
    {
      e := ParticipantLeft(h, u, None, now);
      if h in huddles {
        var row := LeaveRow(h, u, now);
        e := ParticipantLeft(h, u, row, now);
      }
    }

    method OnRoomFinished(h: Id, now: nat)
      modifies this
      ensures Step(old(Snapshot()), RoomFinished(h, now)) == Some(Snapshot())
      ensures h in old(huddles) ==>
        && huddles == old(huddles)[h := old(huddles)[h].(isActive := false, endedAt := Some(now))]
        && rows.Keys == old(rows).Keys && Empty(rows, h)
        && forall r :: r in old(rows) ==>
             rows[r] == if PresentIn(old(rows), r, h) then old(rows)[r].(leftAt := Some(now)) else old(rows)[r]
    {
      if h in huddles {
        huddles := huddles[h := huddles[h].(isActive := false, endedAt := Some(now))];
        rows := map r | r in rows :: if PresentIn(rows, r, h) then rows[r].(leftAt := Some(now)) else rows[r];
      }
    }

    /** `egress` is the recorder's answer, None when starting it failed. */
    method StartRecording(h: Id, egress: Option<nat>) returns (started: bool)
      modifies this`huddles
      ensures Step(old(Snapshot()), Event.StartRecording(h, egress)) == Some(Snapshot())
      ensures started <==> h in old(huddles) && old(huddles)[h].isActive && egress.Some?
      ensures huddles ==
        if started then old(huddles)[h := old(huddles)[h].(egressId := egress, isRecording := true)] else old(huddles)
    {
      started := false;
      if h in huddles && huddles[h].isActive && egress.Some? {
        huddles := huddles[h := huddles[h].(egressId := egress, isRecording := true)];
        started := true;
      }
    }

    method StopRecording(h: Id, video: Option<string>) returns (stopped: bool)
      modifies this`huddles
      ensures Step(old(Snapshot()), Event.StopRecording(h, video)) == Some(Snapshot())
      ensures stopped <==> h in old(huddles) && old(huddles)[h].egressId.Some? && video.Some?
      ensures huddles ==
        if stopped then old(huddles)[h := old(huddles)[h].(egressId := None, isRecording := false, videoUrl := video)]
        else old(huddles)
    {
      stopped := false;
      if h in huddles && huddles[h].egressId.Some? && video.Some? {
        huddles := huddles[h := huddles[h].(egressId := None, isRecording := false, videoUrl := video)];
        stopped := true;
      }
    }
  }
}
