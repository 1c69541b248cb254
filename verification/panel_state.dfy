/**
 * The panel's shared playback record and the poller's update of it: each
 * cycle scans the fetched blob with `get_val` and assigns the record's
 * fields one after another, title first and artwork URL last. Text-to-float
 * conversion is a parameter: it yields no number where `std::stof` throws.
 */
module PanelState {
  import opened Wrappers
  import opened CppString
  import opened FieldScan

  /** Why a poll cycle stopped before assigning every field. */
  datatype Abort = UndefinedRead | NotANumber

  /** How a poll cycle ended. */
  datatype PollOutcome = Completed | Aborted(why: Abort)

  /**
   * How many of the six assignments (title, artist, playing, progress,
   * duration, artwork URL) run before the first fault.
   */
  function AssignmentsRun(data: string, toFloat: string -> Option<real>): (n: nat)
    requires Fits(data)
    ensures n <= 6
    ensures n >= 1 <==> GetVal(data, "title").Success?
    ensures n == 6 ==> GetVal(data, "art_url").Success?
  {
    var progress := GetVal(data, "progress");
    var duration := GetVal(data, "duration");
    if GetVal(data, "title").Failure? then 0
    else if GetVal(data, "artist").Failure? then 1
    else if GetVal(data, "is_playing").Failure? then 2
    else if progress.Failure? || toFloat(progress.value).None? then 3
    else if duration.Failure? || toFloat(duration.value).None? then 4
    else if GetVal(data, "art_url").Failure? then 5
    else 6
  }

  /**
   * An unreachable server gives an empty body. Every key is then absent, so
   * title and artist become empty, playing becomes false, and the cycle
   * stops at the progress conversion when the converter rejects "".
   */
  lemma EmptyResponse(toFloat: string -> Option<real>)
    requires toFloat("").None?
    ensures forall key :: GetVal("", key) == Success("")
    ensures !PlayingFlag("")
    ensures AssignmentsRun("", toFloat) == 3
  {
    forall key: string ensures GetVal("", key) == Success("") {
      GetValKeyAbsent("", key);
    }
  }

  class SpotifyState {
    var title: string
    var artist: string
    var artUrl: string
    var playing: bool
    var progress: real
    var duration: real

    /** The record the panel starts with: placeholder text, paused, duration 1. */
    constructor ()
      ensures title == "—" && artist == "—" && artUrl == ""
      ensures !playing && progress == 0.0 && duration == 1.0
    {
      title, artist, artUrl := "—", "—", "";
      playing := false;
      progress, duration := 0.0, 1.0;
    }

    /**
     * One poll cycle over the fetched blob `data`. Fields are assigned in the
     * source's order; the first fault (an out-of-range read in `get_val`, or
     * a value `toFloat` rejects) ends the cycle with the earlier fields
     * already written and the later ones untouched.
     */
    method Refresh(data: string, toFloat: string -> Option<real>) returns (outcome: PollOutcome)
      requires Fits(data)
      modifies this
      ensures outcome == Completed <==> AssignmentsRun(data, toFloat) == 6
      ensures outcome == Aborted(NotANumber) <==>
        (AssignmentsRun(data, toFloat) == 3 && GetVal(data, "progress").Success?) ||
        (AssignmentsRun(data, toFloat) == 4 && GetVal(data, "duration").Success?)
      ensures title == if AssignmentsRun(data, toFloat) >= 1 then GetVal(data, "title").value else old(title)
      ensures artist == if AssignmentsRun(data, toFloat) >= 2 then GetVal(data, "artist").value else old(artist)
      ensures playing ==
        if AssignmentsRun(data, toFloat) >= 3 then PlayingFlag(GetVal(data, "is_playing").value) else old(playing)
      ensures progress ==
        if AssignmentsRun(data, toFloat) >= 4 then toFloat(GetVal(data, "progress").value).value else old(progress)
      ensures duration ==
        if AssignmentsRun(data, toFloat) >= 5 then toFloat(GetVal(data, "duration").value).value else old(duration)
      ensures artUrl == if AssignmentsRun(data, toFloat) == 6 then GetVal(data, "art_url").value else old(artUrl)
    {
      var t := GetVal(data, "title");
      if t.Failure? { return Aborted(UndefinedRead); }
      title := t.value;
      var a := GetVal(data, "artist");
      if a.Failure? { return Aborted(UndefinedRead); }
      artist := a.value;
      var p := GetVal(data, "is_playing");
      if p.Failure? { return Aborted(UndefinedRead); }
      playing := PlayingFlag(p.value);
      var pr := GetVal(data, "progress");
      if pr.Failure? { return Aborted(UndefinedRead); }
      var prNum := toFloat(pr.value);
      if prNum.None? { return Aborted(NotANumber); }
      progress := prNum.value;
      var d := GetVal(data, "duration");
      if d.Failure? { return Aborted(UndefinedRead); }
      var dNum := toFloat(d.value);
      if dNum.None? { return Aborted(NotANumber); }
      duration := dNum.value;
      var u := GetVal(data, "art_url");
      if u.Failure? { return Aborted(UndefinedRead); }
      artUrl := u.value;
      return Completed;
    }
  }
}
