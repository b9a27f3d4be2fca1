/** The stand-alone meeting room of src/app/meeting/page.tsx. On mount with a
    `url` query parameter it creates a call object, listens for the SDK's
    joining, joined, left and error events and joins; the header buttons
    mute, stop video and leave. The SDK's events arrive as `CallEvent`
    values and its requests leave as `Daily.SdkCall` values. */
module MeetingPage {
  import opened Common
  import opened Daily

  datatype Page = Page(
    callObject: Option<CallHandle>,
    isJoining: bool,
    error: Option<string>,
    isJoined: bool,
    localAudio: bool,
    localVideo: bool)

  const NoUrlError: string := "No meeting URL provided"
  const JoinFailedError: string := "Failed to join meeting"

  /** The state before the mount effect runs. */
  function Initial(): (p: Page)
    ensures p.callObject.None? && !p.isJoining && p.error.None? && !p.isJoined
    ensures p.localAudio && p.localVideo
  {
    Page(None, false, None, false, true, true)
  }

  /** The mount effect's outcome: the page and the join request, if any. */
  datatype Mounted = Mounted(page: Page, join: Option<SdkCall>)

  /** The mount effect. `url` is `searchParams.get('url')`; `candidate` is
      the object `createCallObject` would return. A missing or empty URL
      sets the error and creates and joins nothing. */
  function Mount(p: Page, url: Option<string>, candidate: CallHandle): (m: Mounted)
    ensures !Truthy(url) ==> m.page == p.(error := Some(NoUrlError)) && m.join.None?
    ensures Truthy(url) ==> m.page == p.(callObject := Some(candidate)) && m.join == Some(Join(url.value))
  {
    if !Truthy(url) then Mounted(p.(error := Some(NoUrlError)), None)
    else Mounted(p.(callObject := Some(candidate)), Some(Join(url.value)))
  }

  /** The effect's cleanup destroys the object it created. */
  function Unmount(url: Option<string>): (c: Option<SdkCall>)
    ensures c.Some? <==> Truthy(url)
    ensures c.Some? ==> c.value == Destroy
  {
    if Truthy(url) then Some(Destroy) else None
  }

  /** The events the page listens for. `errorMsg` is the error event's
      message field. */
  datatype CallEvent =
    | JoiningMeeting
    | JoinedMeeting
    | LeftMeeting
    | ErrorEvent(errorMsg: Option<string>)

  /** The four listeners. None of them touches the call object or the media
      flags. */
  function OnEvent(p: Page, ev: CallEvent): (r: Page)
    ensures ev.JoiningMeeting? ==> r.isJoining && r.error.None? && r.isJoined == p.isJoined
    ensures ev.JoinedMeeting? ==> !r.isJoining && r.isJoined && r.error == p.error
    ensures ev.LeftMeeting? ==> r == p.(isJoined := false)
    ensures ev.ErrorEvent? ==> !r.isJoining && r.error == Some(OrElse(ev.errorMsg, JoinFailedError)) && r.isJoined == p.isJoined
    ensures r.callObject == p.callObject && r.localAudio == p.localAudio && r.localVideo == p.localVideo
  {
    match ev
    case JoiningMeeting => p.(isJoining := true, error := None)
    case JoinedMeeting => p.(isJoining := false, isJoined := true)
    case LeftMeeting => p.(isJoined := false)
    case ErrorEvent(msg) => p.(error := Some(OrElse(msg, JoinFailedError)), isJoining := false)
  }

  /** The page after a sequence of events. */
  function Run(p: Page, events: seq<CallEvent>): Page
    decreases |events|
  {
    if |events| == 0 then p
    else OnEvent(Run(p, events[..|events| - 1]), events[|events| - 1])
  }

  /** No `left-meeting` event at or after position `k`. */
  predicate NoLeaveFrom(events: seq<CallEvent>, k: nat) {
    forall j :: k <= j < |events| ==> !events[j].LeftMeeting?
  }

  /** The meeting counts as joined when some `joined-meeting` event has not
      been followed by a `left-meeting` one, or when it already was and no
      `left-meeting` event has arrived. */
  predicate JoinedSince(p: Page, events: seq<CallEvent>) {
    || (exists i :: 0 <= i < |events| && events[i].JoinedMeeting? && NoLeaveFrom(events, i + 1))
    || (p.isJoined && NoLeaveFrom(events, 0))
  }

  /** `isJoined` tracks exactly that: only `joined-meeting` sets it and only
      `left-meeting` clears it, whatever joining and error events come in
      between. */
  lemma {:induction false} JoinedTracksEvents(p: Page, events: seq<CallEvent>)
    ensures Run(p, events).isJoined <==> JoinedSince(p, events)
    decreases |events|
  {
    if |events| > 0 {
      var n := |events|;
      var init := events[..n - 1];
      var e := events[n - 1];
      JoinedTracksEvents(p, init);
      assert forall j :: 0 <= j < n - 1 ==> init[j] == events[j];
      if e.JoinedMeeting? {
        assert NoLeaveFrom(events, n);
      } else if e.LeftMeeting? {
        assert !NoLeaveFrom(events, 0);
        forall i | 0 <= i < n && events[i].JoinedMeeting?
          ensures !NoLeaveFrom(events, i + 1)
        {
          assert i + 1 <= n - 1;
        }
      } else {
        forall k | 0 <= k <= n
          ensures NoLeaveFrom(events, k) <==> NoLeaveFrom(init, k)
        {
        }
        if JoinedSince(p, init) {
          if p.isJoined && NoLeaveFrom(init, 0) {
            assert NoLeaveFrom(events, 0);
          } else {
            var i :| 0 <= i < |init| && init[i].JoinedMeeting? && NoLeaveFrom(init, i + 1);
            assert events[i].JoinedMeeting? && NoLeaveFrom(events, i + 1);
          }
        }
        if JoinedSince(p, events) {
          if p.isJoined && NoLeaveFrom(events, 0) {
            assert NoLeaveFrom(init, 0);
          } else {
            var i :| 0 <= i < n && events[i].JoinedMeeting? && NoLeaveFrom(events, i + 1);
            assert i < n - 1;
            assert init[i].JoinedMeeting? && NoLeaveFrom(init, i + 1);
          }
        }
      }
    }
  }

  /** Events never create, drop or replace the call object, and never change
      the media flags. */
  lemma {:induction false} EventsKeepCallAndMedia(p: Page, events: seq<CallEvent>)
    ensures Run(p, events).callObject == p.callObject
    ensures Run(p, events).localAudio == p.localAudio && Run(p, events).localVideo == p.localVideo
    decreases |events|
  {
    if |events| > 0 {
      EventsKeepCallAndMedia(p, events[..|events| - 1]);
    }
  }

  /** A join that fails before succeeding: the error event stops the
      spinner and shows the SDK's message, or the fallback when it has
      none, and a later `joining-meeting` clears it again. */
  lemma ErrorThenRetry(p: Page, msg: Option<string>)
    ensures var r := Run(p, [JoiningMeeting, ErrorEvent(msg)]);
      !r.isJoining && r.error == Some(if Truthy(msg) then msg.value else JoinFailedError)
    ensures Run(p, [JoiningMeeting, ErrorEvent(msg), JoiningMeeting]).error.None?
  {
    assert [JoiningMeeting, ErrorEvent(msg)][..1] == [JoiningMeeting];
    assert [JoiningMeeting, ErrorEvent(msg), JoiningMeeting][..2] == [JoiningMeeting, ErrorEvent(msg)];
  }

  /** A toggle's outcome: the next page and the SDK request it made. */
  datatype Toggled = Toggled(next: Page, request: Option<SdkCall>)

  /** `toggleAudio`: without a call object nothing happens; otherwise the
      negated flag is sent to the SDK and stored, without waiting for the
      request to succeed. */
  function ToggleAudio(p: Page): (t: Toggled)
    ensures p.callObject.None? ==> t == Toggled(p, None)
    ensures p.callObject.Some? ==> t.next.localAudio == !p.localAudio && t.request == Some(SetLocalAudio(t.next.localAudio))
    ensures t.next.(localAudio := p.localAudio) == p
  {
    if p.callObject.None? then Toggled(p, None)
    else Toggled(p.(localAudio := !p.localAudio), Some(SetLocalAudio(!p.localAudio)))
  }

  /** `toggleVideo`, the same for the camera. */
  function ToggleVideo(p: Page): (t: Toggled)
    ensures p.callObject.None? ==> t == Toggled(p, None)
    ensures p.callObject.Some? ==> t.next.localVideo == !p.localVideo && t.request == Some(SetLocalVideo(t.next.localVideo))
    ensures t.next.(localVideo := p.localVideo) == p
  {
    if p.callObject.None? then Toggled(p, None)
    else Toggled(p.(localVideo := !p.localVideo), Some(SetLocalVideo(!p.localVideo)))
  }

  /** `handleLeaveMeeting`: a leave request when there is a call object. The
      page itself only changes when the `left-meeting` event comes back. */
  function LeaveMeeting(p: Page): (c: Option<SdkCall>)
    ensures c.Some? <==> p.callObject.Some?
    ensures c.Some? ==> c.value == Daily.Leave
  {
    if p.callObject.Some? then Some(Daily.Leave) else None
  }

  /** Toggling twice restores the page, and the two requests ask for
      opposite settings; the first click after mounting mutes and stops the
      video. */
  lemma TogglesAreInvolutions(p: Page, url: string, candidate: CallHandle)
    requires url != ""
    ensures ToggleAudio(ToggleAudio(p).next).next == p
    ensures ToggleVideo(ToggleVideo(p).next).next == p
    ensures var m := Mount(Initial(), Some(url), candidate).page;
      && ToggleAudio(m).request == Some(SetLocalAudio(false))
      && ToggleVideo(m).request == Some(SetLocalVideo(false))
  {
  }

  /** Without a URL the page stays inert: no call object, so every control
      is a no-op and no SDK request is ever made. */
  lemma NoUrlIsInert(url: Option<string>, candidate: CallHandle)
    requires !Truthy(url)
    ensures var m := Mount(Initial(), url, candidate);
      && m.page.error == Some(NoUrlError) && m.join.None? && m.page.callObject.None?
      && ToggleAudio(m.page) == Toggled(m.page, None)
      && ToggleVideo(m.page) == Toggled(m.page, None)
      && LeaveMeeting(m.page).None?
      && Unmount(url).None?
  {
  }
}
