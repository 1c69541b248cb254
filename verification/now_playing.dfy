/**
 * The backend's `spotify_now` route: it projects the player's loosely shaped
 * playback record onto the flat record the panel scans, filling in defaults
 * for whatever is missing. A key that is absent is `None` here, and the
 * record types list the keys the route reads. Only the item's emptiness
 * decides anything (an empty item is falsy), so `Item.otherKeys` says
 * whether the item holds any further keys. An empty playback dictionary
 * reads the same as no playback, so the playback record needs no such flag.
 */
module NowPlaying {
  import opened Wrappers

  datatype Image = Image(url: Option<string>)
  datatype Album = Album(images: Option<seq<Image>>)
  datatype Artist = Artist(name: Option<string>)
  datatype Item = Item(name: Option<string>, artists: Option<seq<Artist>>, durationMs: Option<int>,
                       album: Option<Album>, otherKeys: bool)
  datatype Playback = Playback(item: Option<Item>, isPlaying: Option<bool>, progressMs: Option<int>)

  /** The flat record the route returns. */
  datatype Now = Now(title: string, artist: string, isPlaying: bool, progress: int, duration: int, artUrl: string)

  /**
   * The exceptions that escape the route: one raised by the player call
   * (carrying its text), or one raised while building the reply.
   */
  datatype PyError = PlayerRaised(message: string) | KeyError(key: string) | IndexError

  const PLACEHOLDER: string := "—"

  const EMPTY_ITEM: Item := Item(None, None, None, None, false)

  /** A dictionary with no keys, which Python treats as false. */
  predicate IsEmptyItem(item: Item) {
    item == EMPTY_ITEM
  }

  /** `sep.join(parts)`. */
  function Join(parts: seq<string>, sep: string): string
    decreases |parts|
  {
    if |parts| == 0 then ""
    else if |parts| == 1 then parts[0]
    else parts[0] + sep + Join(parts[1..], sep)
  }

  /** `[a["name"] for a in artists]`: the names in order, or a KeyError for an artist without one. */
  function ArtistNames(artists: seq<Artist>): (r: Result<seq<string>, PyError>)
    ensures r.Success? <==> forall i :: 0 <= i < |artists| ==> artists[i].name.Some?
    ensures r.Success? ==>
      (|r.value| == |artists| && forall i :: 0 <= i < |artists| ==> r.value[i] == artists[i].name.value)
    ensures r.Failure? ==> r.error == KeyError("name")
    decreases |artists|
  {
    if |artists| == 0 then Success([])
    else if artists[0].name.None? then Failure(KeyError("name"))
    else
      match ArtistNames(artists[1..])
      case Success(rest) => Success([artists[0].name.value] + rest)
      case Failure(e) => Failure(e)
  }

  /** The `artist` entry: names joined with ", " for a non-empty item, the placeholder for an empty one. */
  function ArtistText(item: Item): Result<string, PyError> {
    if IsEmptyItem(item) then Success(PLACEHOLDER)
    else
      match ArtistNames(item.artists.GetOr([]))
      case Success(names) => Success(Join(names, ", "))
      case Failure(e) => Failure(e)
  }

  /** `item.get("album", {}).get("images", [{}])[0].get("url", "")`. */
  function ArtUrl(item: Item): Result<string, PyError> {
    var images := if item.album.Some? then item.album.value.images.GetOr([Image(None)]) else [Image(None)];
    if |images| == 0 then Failure(IndexError) else Success(images[0].url.GetOr(""))
  }

  /**
   * `spotify_now` given what `current_playback()` did: returned a playback,
   * returned `None` (nothing is playing), or raised. The exception is not
   * caught. The dictionary's entries are evaluated in order, so a KeyError
   * from the artist names is raised before an IndexError from the artwork.
   */
  function SpotifyNow(current: Result<Option<Playback>, string>): (r: Result<Now, PyError>)
    ensures current.Failure? ==> r == Failure(PlayerRaised(current.error))
    ensures r.Success? ==> r.value.duration != 0
  {
    if current.Failure? then Failure(PlayerRaised(current.error)) else
    var cur := current.value.GetOr(Playback(None, None, None));
    var item := cur.item.GetOr(EMPTY_ITEM);
    match ArtistText(item)
    case Failure(e) => Failure(e)
    case Success(artist) =>
      match ArtUrl(item)
      case Failure(e) => Failure(e)
      case Success(url) =>
        var duration := if item.durationMs.Some? && item.durationMs.value != 0 then item.durationMs.value else 1;
        Success(Now(item.name.GetOr(PLACEHOLDER), artist, cur.isPlaying.GetOr(false),
                    cur.progressMs.GetOr(0), duration, url))
  }

  // ---------- what the route promises ----------

  /** With no playback, or no item in it, the reply holds the placeholders, a duration of 1 and no artwork. */
  lemma NowWithoutItem(current: Option<Playback>)
    requires current.None? || current.value.item.None? || IsEmptyItem(current.value.item.value)
    ensures var cur := current.GetOr(Playback(None, None, None));
      SpotifyNow(Success(current)) == Success(Now(PLACEHOLDER, PLACEHOLDER, cur.isPlaying.GetOr(false),
                                         cur.progressMs.GetOr(0), 1, ""))
  {
  }

  /** The reply's fields, field by field, whenever the route does not raise. */
  lemma NowFields(cur: Playback)
    requires SpotifyNow(Success(Some(cur))).Success?
    ensures var now := SpotifyNow(Success(Some(cur))).value;
      var item := cur.item.GetOr(EMPTY_ITEM);
      var arts := item.artists.GetOr([]);
      (now.title == if item.name.Some? then item.name.value else PLACEHOLDER) &&
      (IsEmptyItem(item) ==> now.artist == PLACEHOLDER) &&
      (!IsEmptyItem(item) ==>
        now.artist == Join(seq(|arts|, i requires 0 <= i < |arts| => arts[i].name.GetOr("")), ", ")) &&
      (!IsEmptyItem(item) && item.artists.None? ==> now.artist == "") &&
      (now.isPlaying == (cur.isPlaying == Some(true))) &&
      (now.progress == if cur.progressMs.Some? then cur.progressMs.value else 0) &&
      (now.duration == if item.durationMs.Some? && item.durationMs.value != 0 then item.durationMs.value else 1) &&
      (item.album.Some? && item.album.value.images.Some? ==> now.artUrl == item.album.value.images.value[0].url.GetOr("")) &&
      (item.album.None? || item.album.value.images.None? ==> now.artUrl == "")
  {
    var item := cur.item.GetOr(EMPTY_ITEM);
    var arts := item.artists.GetOr([]);
    if !IsEmptyItem(item) {
      var names := ArtistNames(arts);
      assert names.Success?;
      assert names.value == seq(|arts|, i requires 0 <= i < |arts| => arts[i].name.GetOr(""));
    }
  }

  /**
   * The route raises exactly when a non-empty item lists an artist without a
   * name (a KeyError, which wins) or its album lists no images (an IndexError).
   */
  lemma NowFailsIff(cur: Playback)
    ensures var item := cur.item.GetOr(EMPTY_ITEM);
      var badArtist := !IsEmptyItem(item) && item.artists.Some? &&
        exists i :: 0 <= i < |item.artists.value| && item.artists.value[i].name.None?;
      var noImages := item.album.Some? && item.album.value.images == Some([]);
      (SpotifyNow(Success(Some(cur))).Failure? <==> badArtist || noImages) &&
      (badArtist ==> SpotifyNow(Success(Some(cur))) == Failure(KeyError("name"))) &&
      (!badArtist && noImages ==> SpotifyNow(Success(Some(cur))) == Failure(IndexError))
  {
  }

  // ---------- the artist list survives the join ----------

  /** The index of the first comma in `s`. */
  function FirstComma(s: string): (i: nat)
    requires ',' in s
    ensures i < |s| && s[i] == ',' && ',' !in s[..i]
  {
    if s[0] == ',' then 0
    else
      var i := 1 + FirstComma(s[1..]);
      assert s[..i] == [s[0]] + s[1..][..i - 1];
      i
  }

  /** Cut the joined artist text back into names: split at each comma and drop the character after it. */
  function SplitArtists(s: string): seq<string>
    decreases |s|
  {
    if ',' !in s then [s]
    else
      var i := FirstComma(s);
      [s[..i]] + SplitArtists(s[if i + 2 <= |s| then i + 2 else |s|..])
  }

  /** Joining names with ", " loses nothing when no name holds a comma: splitting gives them back in order. */
  lemma {:induction false} JoinSplitRoundTrip(names: seq<string>)
    requires |names| > 0
    requires forall k :: 0 <= k < |names| ==> ',' !in names[k]
    ensures SplitArtists(Join(names, ", ")) == names
    decreases |names|
  {
    if |names| > 1 {
      var s := Join(names, ", ");
      var n0 := names[0];
      assert s == n0 + ", " + Join(names[1..], ", ");
      assert s[|n0|] == ',';
      assert s[..|n0|] == n0;
      assert FirstComma(s) == |n0|;
      assert s[|n0| + 2..] == Join(names[1..], ", ");
      JoinSplitRoundTrip(names[1..]);
      assert names == [n0] + names[1..];
    }
  }

  /** A non-empty item whose artists all have comma-free names: the reply's artist text splits back into those names. */
  lemma ArtistRoundTrip(cur: Playback)
    requires cur.item.Some? && !IsEmptyItem(cur.item.value)
    requires cur.item.value.artists.Some? && |cur.item.value.artists.value| > 0
    requires forall i :: 0 <= i < |cur.item.value.artists.value| ==>
      cur.item.value.artists.value[i].name.Some? && ',' !in cur.item.value.artists.value[i].name.value
    requires SpotifyNow(Success(Some(cur))).Success?
    ensures var artists := cur.item.value.artists.value;
      SplitArtists(SpotifyNow(Success(Some(cur))).value.artist) == seq(|artists|, i requires 0 <= i < |artists| => artists[i].name.value)
  {
    var artists := cur.item.value.artists.value;
    var names := ArtistNames(artists).value;
    assert ArtistText(cur.item.value) == Success(Join(names, ", "));
    JoinSplitRoundTrip(names);
  }
}
