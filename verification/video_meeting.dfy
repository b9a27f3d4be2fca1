/** The embedded meeting of src/app/components/VideoMeeting.tsx: a call object
    kept as a page-wide singleton, the split of the SDK's participant map into
    the local participant and the remote ones, the start and cleanup of the
    call, and the four control toggles. Every SDK call is returned as a
    `Daily.SdkCall` value; whether it succeeds is a parameter. */
module VideoMeeting {
  import opened Common
  import opened Daily

  /** One entry of `call.participants()`, reduced to what is displayed. */
  datatype Participant = Participant(sessionId: string, userName: Option<string>)

  /** The key under which the SDK reports the local participant. */
  const LocalKey: string := "local"

  // ---------------------------------------------------------------------
  // The call-object singleton

  /** `getOrCreateCallObject`: `slot` is `window._dailyCallObject`, `candidate`
      the handle `createCallObject` would return. */
  datatype Obtained = Obtained(slot: Option<CallHandle>, call: CallHandle, created: bool)

  function GetOrCreateCallObject(slot: Option<CallHandle>, candidate: CallHandle): (o: Obtained)
    ensures o.slot == Some(o.call)
    ensures o.created <==> slot.None?
    ensures slot.Some? ==> o.call == slot.value
    ensures slot.None? ==> o.call == candidate
  {
    match slot
    case Some(existing) => Obtained(slot, existing, false)
    case None => Obtained(Some(candidate), candidate, true)
  }

  /** A series of `getOrCreateCallObject` calls, each with its own candidate
      handle: the calls' results in order and the number of objects created. */
  datatype Series = Series(slot: Option<CallHandle>, calls: seq<CallHandle>, creations: nat)

  function CallSeries(slot: Option<CallHandle>, candidates: seq<CallHandle>): (s: Series)
    ensures |s.calls| == |candidates|
    decreases |candidates|
  {
    if |candidates| == 0 then Series(slot, [], 0)
    else
      var before := CallSeries(slot, candidates[..|candidates| - 1]);
      var o := GetOrCreateCallObject(before.slot, candidates[|candidates| - 1]);
      Series(o.slot, before.calls + [o.call], before.creations + (if o.created then 1 else 0))
  }

  /** The singleton at work: starting from an empty slot, however many times
      the component asks, at most one call object is created, and every
      request returns that same object, the first candidate. */
  lemma {:induction false} SingletonCreatesOnce(candidates: seq<CallHandle>)
    ensures var s := CallSeries(None, candidates);
      && s.creations == (if |candidates| == 0 then 0 else 1)
      && (|candidates| > 0 ==> s.slot == Some(candidates[0]))
      && (forall i :: 0 <= i < |s.calls| ==> s.calls[i] == candidates[0])
    decreases |candidates|
  {
    if |candidates| > 0 {
      var init := candidates[..|candidates| - 1];
      SingletonCreatesOnce(init);
      if |init| > 0 {
        assert init[0] == candidates[0];
      }
    }
  }

  /** With an object already stored, nothing is created and the stored
      object is returned every time. */
  lemma {:induction false} StoredObjectReused(h: CallHandle, candidates: seq<CallHandle>)
    ensures var s := CallSeries(Some(h), candidates);
      s.creations == 0 && s.slot == Some(h) && forall i :: 0 <= i < |s.calls| ==> s.calls[i] == h
    decreases |candidates|
  {
    if |candidates| > 0 {
      StoredObjectReused(h, candidates[..|candidates| - 1]);
    }
  }

  // ---------------------------------------------------------------------
  // The participant split

  /** The participant map with its local entry removed, and that entry. */
  datatype Split = Split(remotes: map<string, Participant>, local: Option<Participant>)

  /** The split as a specification: the remotes are every entry except the
      one keyed `'local'`, which becomes the local participant. */
  function SplitParticipants(participants: map<string, Participant>): (s: Split)
    ensures LocalKey !in s.remotes
    ensures s.remotes.Keys == participants.Keys - {LocalKey}
    ensures forall k :: k in s.remotes ==> s.remotes[k] == participants[k]
    ensures s.local.Some? <==> LocalKey in participants
    ensures s.local.Some? ==> s.local.value == participants[LocalKey]
  {
    Split(
      participants - {LocalKey},
      if LocalKey in participants then Some(participants[LocalKey]) else None)
  }

  /** Nothing is lost: putting the local participant back under its key
      gives the participant map again. */
  lemma SplitLosesNothing(participants: map<string, Participant>)
    ensures var s := SplitParticipants(participants);
      participants == (if s.local.Some? then s.remotes[LocalKey := s.local.value] else s.remotes)
  {
  }

  /** The object behind `Object.entries(participants)`: later entries win
      for a repeated key. */
  function EntriesToMap(entries: seq<(string, Participant)>): map<string, Participant>
    decreases |entries|
  {
    if |entries| == 0 then map[]
    else
      var last := entries[|entries| - 1];
      EntriesToMap(entries[..|entries| - 1])[last.0 := last.1]
  }

  /** `updateRemoteParticipants` as written: walk the entries, sending the
      `'local'` one to `local` and every other one into `remotes`. The walk
      computes the specified split of the map the entries come from. */
  method UpdateRemoteParticipants(entries: seq<(string, Participant)>) returns (remotes: map<string, Participant>, local: Option<Participant>)
    ensures Split(remotes, local) == SplitParticipants(EntriesToMap(entries))
    ensures LocalKey !in remotes
  {
    remotes := map[];
    local := None;
    var i := 0;
    while i < |entries|
      invariant 0 <= i <= |entries|
      invariant remotes == EntriesToMap(entries[..i]) - {LocalKey}
      invariant local == SplitParticipants(EntriesToMap(entries[..i])).local
    {
      var (id, p) := entries[i];
      assert entries[..i + 1][..i] == entries[..i];
      if id == LocalKey {
        local := Some(p);
      } else {
        remotes := remotes[id := p];
      }
      i := i + 1;
    }
    assert entries[..|entries|] == entries;
  }

  // ---------------------------------------------------------------------
  // The component's state

  datatype Meeting = Meeting(
    call: Option<CallHandle>,          // callRef.current
    isLoading: bool,
    error: Option<string>,
    remoteParticipants: map<string, Participant>,
    localParticipant: Option<Participant>,
    isCameraOn: bool,
    isMicOn: bool,
    isCaptionsOn: bool,
    isRecording: bool)

  const StartFailedError: string := "Failed to start video call"

  /** The state on mount: loading, camera and microphone on, captions and
      recording off, no call yet. */
  function Initial(): (m: Meeting)
    ensures m.call.None? && m.isLoading && m.error.None?
    ensures m.isCameraOn && m.isMicOn && !m.isCaptionsOn && !m.isRecording
    ensures m.remoteParticipants == map[] && m.localParticipant.None?
  {
    Meeting(None, true, None, map[], None, true, true, false, false)
  }

  /** A participant event: the component stores the split. */
  function OnParticipantsChanged(m: Meeting, participants: map<string, Participant>): (r: Meeting)
    ensures Split(r.remoteParticipants, r.localParticipant) == SplitParticipants(participants)
    ensures r.(remoteParticipants := m.remoteParticipants, localParticipant := m.localParticipant) == m
  {
    var s := SplitParticipants(participants);
    m.(remoteParticipants := s.remotes, localParticipant := s.local)
  }

  /** What starting the call does: the new component state, the singleton
      slot afterwards, and the join request, if any. */
  datatype Started = Started(next: Meeting, slot: Option<CallHandle>, join: Option<SdkCall>)

  /** The mount effect and `startVideoCall`. Nothing happens without a
      truthy `conversation_url` or before the container is mounted;
      otherwise the singleton is obtained, the join is requested, and the
      loading flag clears whichever way the join ends. */
  function StartVideoCall(m: Meeting, slot: Option<CallHandle>, candidate: CallHandle,
                          conversationUrl: Option<string>, containerMounted: bool, joinOk: bool): (s: Started)
    ensures !Truthy(conversationUrl) || !containerMounted ==> s == Started(m, slot, None)
    ensures Truthy(conversationUrl) && containerMounted ==>
      && s.join == Some(Join(conversationUrl.value))
      && s.slot == GetOrCreateCallObject(slot, candidate).slot
      && s.next.call == Some(GetOrCreateCallObject(slot, candidate).call)
      && !s.next.isLoading
      && (s.next.error.None? <==> joinOk)
      && (!joinOk ==> s.next.error == Some(StartFailedError))
  {
    if !Truthy(conversationUrl) || !containerMounted then Started(m, slot, None)
    else
      var o := GetOrCreateCallObject(slot, candidate);
      var joined := m.(call := Some(o.call), isLoading := false);
      Started(
        if joinOk then joined.(error := None) else joined.(error := Some(StartFailedError)),
        o.slot,
        Some(Join(conversationUrl.value)))
  }

  /** The effect's cleanup: leave the call if there is one. The singleton is
      left in its slot, so a remount reuses the object that was left. */
  function Cleanup(m: Meeting): (c: Option<SdkCall>)
    ensures c.Some? <==> m.call.Some?
    ensures c.Some? ==> c.value == Leave
  {
    if m.call.Some? then Some(Leave) else None
  }

  /** A remount after cleanup joins with the very object that was left. */
  lemma RemountReusesObject(m: Meeting, slot: Option<CallHandle>, candidate1: CallHandle, candidate2: CallHandle, url: string, ok1: bool, ok2: bool)
    requires url != ""
    ensures var first := StartVideoCall(m, slot, candidate1, Some(url), true, ok1);
      var second := StartVideoCall(first.next, first.slot, candidate2, Some(url), true, ok2);
      && Cleanup(first.next) == Some(Leave)
      && second.next.call == first.next.call
  {
  }

  // ---------------------------------------------------------------------
  // The controls

  /** A toggle's outcome: the next state and the SDK request it made. */
  datatype Toggled = Toggled(next: Meeting, request: Option<SdkCall>)

  /** `toggleCamera`: without a call nothing happens; otherwise it asks for
      the opposite of the current camera state and flips the flag only if
      the request succeeds. */
  function ToggleCamera(m: Meeting, sdkOk: bool): (t: Toggled)
    ensures m.call.None? ==> t == Toggled(m, None)
    ensures m.call.Some? ==> t.request == Some(SetLocalVideo(!m.isCameraOn))
    ensures t.next.isCameraOn == (if m.call.Some? && sdkOk then !m.isCameraOn else m.isCameraOn)
    ensures t.next.(isCameraOn := m.isCameraOn) == m
  {
    if m.call.None? then Toggled(m, None)
    else Toggled(if sdkOk then m.(isCameraOn := !m.isCameraOn) else m, Some(SetLocalVideo(!m.isCameraOn)))
  }

  /** `toggleMic`, the same for the microphone. */
  function ToggleMic(m: Meeting, sdkOk: bool): (t: Toggled)
    ensures m.call.None? ==> t == Toggled(m, None)
    ensures m.call.Some? ==> t.request == Some(SetLocalAudio(!m.isMicOn))
    ensures t.next.isMicOn == (if m.call.Some? && sdkOk then !m.isMicOn else m.isMicOn)
    ensures t.next.(isMicOn := m.isMicOn) == m
  {
    if m.call.None? then Toggled(m, None)
    else Toggled(if sdkOk then m.(isMicOn := !m.isMicOn) else m, Some(SetLocalAudio(!m.isMicOn)))
  }

  /** `toggleCaptions`: with a call the flag flips with no SDK request at
      all; without one nothing happens. */
  function ToggleCaptions(m: Meeting): (t: Toggled)
    ensures t.request.None?
    ensures t.next.isCaptionsOn == (if m.call.Some? then !m.isCaptionsOn else m.isCaptionsOn)
    ensures t.next.(isCaptionsOn := m.isCaptionsOn) == m
  {
    Toggled(if m.call.Some? then m.(isCaptionsOn := !m.isCaptionsOn) else m, None)
  }

  /** `toggleRecording`: stop while recording, start otherwise, flipping the
      flag only if the request succeeds. */
  function ToggleRecording(m: Meeting, sdkOk: bool): (t: Toggled)
    ensures m.call.None? ==> t == Toggled(m, None)
    ensures m.call.Some? ==> t.request == Some(if m.isRecording then StopRecording else StartRecording)
    ensures t.next.isRecording == (if m.call.Some? && sdkOk then !m.isRecording else m.isRecording)
    ensures t.next.(isRecording := m.isRecording) == m
  {
    if m.call.None? then Toggled(m, None)
    else Toggled(if sdkOk then m.(isRecording := !m.isRecording) else m,
                 Some(if m.isRecording then StopRecording else StartRecording))
  }

  /** Two successful toggles of the same control are no change at all, and
      the second request undoes the first; a failed toggle changes nothing. */
  lemma TogglesAreInvolutions(m: Meeting)
    requires m.call.Some?
    ensures ToggleCamera(ToggleCamera(m, true).next, true).next == m
    ensures ToggleMic(ToggleMic(m, true).next, true).next == m
    ensures ToggleCaptions(ToggleCaptions(m).next).next == m
    ensures ToggleRecording(ToggleRecording(m, true).next, true).next == m
    ensures ToggleCamera(m, true).request == Some(SetLocalVideo(false))
      <==> ToggleCamera(ToggleCamera(m, true).next, true).request == Some(SetLocalVideo(true))
    ensures ToggleRecording(m, true).request == Some(StartRecording)
      <==> ToggleRecording(ToggleRecording(m, true).next, true).request == Some(StopRecording)
    ensures ToggleCamera(m, false).next == m && ToggleMic(m, false).next == m && ToggleRecording(m, false).next == m
  {
  }

  /** The first click on each control from the initial flags, once the call
      exists: the camera and microphone are turned off and recording starts. */
  lemma FirstClicks(h: CallHandle)
    ensures var m := Initial().(call := Some(h));
      && ToggleCamera(m, true).request == Some(SetLocalVideo(false))
      && ToggleMic(m, true).request == Some(SetLocalAudio(false))
      && ToggleRecording(m, true).request == Some(StartRecording)
      && ToggleCaptions(m).next.isCaptionsOn
  {
  }

  datatype Control = CameraControl | MicControl | CaptionsControl | RecordingControl

  /** The control bar: all four controls unless `dailyConfig?.enableClosedCaptions`
      is truthy, in which case only the captions toggle. `None` stands for
      a missing config or key. */
  function VisibleControls(enableClosedCaptions: Option<bool>): (cs: seq<Control>)
    ensures CaptionsControl in cs
    ensures |cs| == 1 <==> enableClosedCaptions == Some(true)
    ensures enableClosedCaptions != Some(true) ==>
      CameraControl in cs && MicControl in cs && RecordingControl in cs
  {
    if enableClosedCaptions == Some(true) then [CaptionsControl]
    else [CameraControl, MicControl, CaptionsControl, RecordingControl]
  }
}
