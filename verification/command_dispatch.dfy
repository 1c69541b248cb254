/**
 * The backend's `spotify_cmd` route: it reads the `cmd` entry of the posted
 * JSON body and forwards it to the player. The player is outside the model;
 * what it answers (and whether a call raises) is passed in as `Replies`, and
 * the route's result records which player calls it made and what it replied.
 */
module CommandDispatch {
  import opened Wrappers
  import NowPlaying
  import GpioInput

  /** The player calls the route can make, in the order it makes them. */
  datatype PlayerCall = QueryPlayback | Pause | Start | NextTrack | PreviousTrack

  /**
   * What the player does when called: `playback` is what `current_playback()`
   * returns (or the text of the exception it raises), `actionError` the text
   * of the exception raised by the pause, start, next or previous call, if any.
   */
  datatype Replies = Replies(playback: Result<Option<NowPlaying.Playback>, string>, actionError: Option<string>)

  /** `{"ok": true}` or `{"ok": false, "error": str(e)}`. */
  datatype Reply = Ok | Failed(error: string)

  datatype Dispatch = Dispatch(calls: seq<PlayerCall>, reply: Reply)

  const KNOWN_COMMANDS: set<string> := {"playpause", "next", "prev"}

  /**
   * `(request.json or {}).get("cmd", "")`, where `body` is what `request.json`
   * yields: a JSON object, or `None`. No body and a body without `cmd` both
   * read as no command.
   */
  function CommandOf(body: Option<map<string, string>>): string {
    if body.Some? && "cmd" in body.value then body.value["cmd"] else ""
  }

  /** `cur and cur.get("is_playing")`: only a playback that says it is playing counts as playing. */
  predicate IsPlaying(cur: Option<NowPlaying.Playback>) {
    cur.Some? && cur.value.isPlaying == Some(true)
  }

  /** The call `playpause` makes once the playback is known. */
  function ToggleCall(cur: Option<NowPlaying.Playback>): PlayerCall {
    if IsPlaying(cur) then Pause else Start
  }

  /** The reply after the pause, start, next or previous call. */
  function ActionReply(replies: Replies): Reply {
    if replies.actionError.Some? then Failed(replies.actionError.value) else Ok
  }

  /** `spotify_cmd` for a posted body, given how the player answers. */
  function SpotifyCmd(body: Option<map<string, string>>, replies: Replies): (r: Dispatch)
    ensures CommandOf(body) !in KNOWN_COMMANDS ==> r == Dispatch([], Ok)
    ensures CommandOf(body) == "next" ==> r.calls == [NextTrack]
    ensures CommandOf(body) == "prev" ==> r.calls == [PreviousTrack]
    ensures CommandOf(body) == "playpause" ==>
      r.calls == [QueryPlayback] + (if replies.playback.Success? then [ToggleCall(replies.playback.value)] else [])
  {
    var cmd := CommandOf(body);
    if cmd == "playpause" then
      match replies.playback
      case Failure(e) => Dispatch([QueryPlayback], Failed(e))
      case Success(cur) =>
        var call := ToggleCall(cur);
        Dispatch([QueryPlayback, call], ActionReply(replies))
    else if cmd == "next" then Dispatch([NextTrack], ActionReply(replies))
    else if cmd == "prev" then Dispatch([PreviousTrack], ActionReply(replies))
    else Dispatch([], Ok)
  }

  // ---------- what the route promises ----------

  /** The playing state a pause or start call leaves behind, from the state before it. */
  function PlayingAfter(call: PlayerCall, playing: bool): bool {
    match call
    case Pause => false
    case Start => true
    case _ => playing
  }

  /**
   * When `request.json` yields `None`, or an object without a `cmd` entry,
   * the command is empty: nothing is called and the reply is ok.
   */
  lemma MissingCommandIsNoop(body: Option<map<string, string>>, replies: Replies)
    requires body.None? || "cmd" !in body.value
    ensures SpotifyCmd(body, replies) == Dispatch([], Ok)
  {
    assert CommandOf(body) == "";
  }

  /**
   * The route fails exactly when a player call it makes raises, and then
   * reports that exception's text.
   */
  lemma FailsIff(body: Option<map<string, string>>, replies: Replies)
    ensures var cmd := CommandOf(body);
      var queryRaised := cmd == "playpause" && replies.playback.Failure?;
      var actionRaised := cmd in KNOWN_COMMANDS && !queryRaised && replies.actionError.Some?;
      (SpotifyCmd(body, replies).reply.Failed? <==> queryRaised || actionRaised) &&
      (queryRaised ==> SpotifyCmd(body, replies).reply == Failed(replies.playback.error)) &&
      (actionRaised ==> SpotifyCmd(body, replies).reply == Failed(replies.actionError.value))
  {
  }

  /**
   * `playpause` toggles: when its calls succeed, the player ends up in the
   * opposite of the playing state it reported.
   */
  lemma PlayPauseToggles(body: Option<map<string, string>>, replies: Replies)
    requires CommandOf(body) == "playpause"
    requires SpotifyCmd(body, replies).reply == Ok
    ensures replies.playback.Success?
    ensures var d := SpotifyCmd(body, replies);
      |d.calls| == 2 && d.calls[0] == QueryPlayback &&
      PlayingAfter(d.calls[1], IsPlaying(replies.playback.value)) == !IsPlaying(replies.playback.value)
  {
  }

  /**
   * The panel's command names, sent as the JSON object `{"cmd": name}`:
   * previous, play/pause and next reach the player, while the volume
   * commands are accepted and do nothing.
   */
  lemma PanelCommands(c: GpioInput.MediaCmd, replies: Replies)
    ensures var d := SpotifyCmd(Some(map["cmd" := GpioInput.CmdName(c)]), replies);
      (c == GpioInput.VolUp || c == GpioInput.VolDown ==> d == Dispatch([], Ok)) &&
      (c == GpioInput.Prev ==> d.calls == [PreviousTrack]) &&
      (c == GpioInput.Next ==> d.calls == [NextTrack]) &&
      (c == GpioInput.PlayPause ==> d.calls[0] == QueryPlayback)
  {
    var name := GpioInput.CmdName(c);
    assert CommandOf(Some(map["cmd" := name])) == name;
    if c == GpioInput.VolUp {
      assert name == "vol_up";
      assert name !in KNOWN_COMMANDS by {
        assert name[0] == 'v';
      }
    } else if c == GpioInput.VolDown {
      assert name == "vol_down";
      assert name !in KNOWN_COMMANDS by {
        assert name[0] == 'v';
      }
    }
  }
}
