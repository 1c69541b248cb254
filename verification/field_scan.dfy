/**
 * The panel's two best-effort field scanners over a flat JSON-like text
 * blob: `get_val`, used on the playback record, and `find`, used on the
 * telemetry record. Both search for the key in quotes and slice the text
 * that follows; neither parses structure.
 */
module FieldScan {
  import opened Wrappers
  import opened CppString

  /** Characters `get_val` accepts as the first character of a value. */
  const VALUE_START: set<char> := {'"', '0', '1', '2', '3', '4', '5', '6', '7', '8', '9', 't', 'f', 'r'}

  /** The one way `get_val` goes wrong: indexing the blob at `npos`. */
  datatype Fault = OutOfRangeRead

  /** The key as it is searched for: between double quotes. */
  function Quoted(key: string): (q: string)
    ensures |q| == |key| + 2 && q[0] == '"'
  {
    "\"" + key + "\""
  }

  /** `v` is a contiguous slice of `s`. */
  ghost predicate SliceOf(v: string, s: string) {
    exists i, j :: 0 <= i <= j <= |s| && s[i..j] == v
  }

  /**
   * `get_val(key)` over `data`: locate the quoted key, then the next `:`,
   * then the next value-start character; a quote opens a string that runs
   * to the next quote, anything else a scalar that runs to the next comma.
   * If no `:` follows the key, `npos + 1` wraps to 0 and the value search
   * starts over from the beginning of the blob.
   */
  function GetVal(data: string, key: string): (r: Result<string, Fault>)
    requires Fits(data)
    ensures r.Success? ==> SliceOf(r.value, data)
  {
    var pos := Find(data, Quoted(key), 0);
    if pos == NPOS then
      assert data[0..0] == "";
      Success("")
    else
      ValueAfterColon(data, Find(data, ":", pos))
  }

  /** The second half of `get_val`, once the `:` search has returned `colon`. */
  function ValueAfterColon(data: string, colon: Size): (r: Result<string, Fault>)
    requires Fits(data)
    ensures r.Success? ==> SliceOf(r.value, data)
  {
    var start := FindFirstOf(data, VALUE_START, AddSize(colon, 1));
    if start == NPOS then Failure(OutOfRangeRead)
    else if data[start] == '"' then
      var v := QuotedValue(data, start);
      assert data[start + 1..start + 1 + |v|] == v;
      Success(v)
    else
      var v := ScalarValue(data, start);
      assert data[start..start + |v|] == v;
      Success(v)
  }

  /** `substr(start + 1, end - start - 1)` where `end` is the next quote after `start`. */
  function QuotedValue(data: string, start: Size): (v: string)
    requires Fits(data) && start < |data|
    ensures start + 1 + |v| <= |data| && v == data[start + 1..start + 1 + |v|]
  {
    var end := Find(data, "\"", start + 1);
    Substr(data, start + 1, SubSize(SubSize(end, start), 1))
  }

  /** `substr(start, end - start)` where `end` is the next comma at or after `start`. */
  function ScalarValue(data: string, start: Size): (v: string)
    requires Fits(data) && start < |data|
    ensures start + |v| <= |data| && v == data[start..start + |v|]
  {
    var end := Find(data, ",", start);
    Substr(data, start, SubSize(end, start))
  }

  /** `spotify.playing`: the extracted `is_playing` text contains `true`. */
  function PlayingFlag(text: string): (b: bool)
    requires Fits(text)
    ensures b <==> exists i :: MatchAt(text, "true", i)
  {
    Find(text, "true", 0) != NPOS
  }

  /** The four displayed telemetry values. */
  datatype Telemetry = Telemetry(cpu: string, gpu: string, tempCpu: string, tempGpu: string)

  /**
   * The telemetry `find(key)`: `n/a` when the quoted key is absent,
   * otherwise the raw text between the next `:` and the next `,` after it.
   */
  function StatField(data: string, key: string): (r: string)
    requires Fits(data)
    ensures r == "n/a" || SliceOf(r, data)
  {
    var pos := Find(data, Quoted(key), 0);
    if pos == NPOS then "n/a" else RawAfterColon(data, Find(data, ":", pos))
  }

  /** `substr(pos + 1, end - pos - 1)` where `end` is the next comma at or after `pos`. */
  function RawAfterColon(data: string, pos: Size): (v: string)
    requires Fits(data) && (pos < |data| || pos == NPOS)
    ensures SliceOf(v, data)
  {
    var end := Find(data, ",", pos);
    var v := Substr(data, AddSize(pos, 1), SubSize(SubSize(end, pos), 1));
    assert data[AddSize(pos, 1)..AddSize(pos, 1) + |v|] == v;
    v
  }

  /** `fetch_stats`: the four fields, each scanned independently. */
  function FetchStats(data: string): Telemetry
    requires Fits(data)
  {
    Telemetry(StatField(data, "cpu"), StatField(data, "gpu"),
              StatField(data, "temp_cpu"), StatField(data, "temp_gpu"))
  }

  // ---------- what get_val returns, stated on indices ----------

  /** A blob without the quoted key yields the empty string. */
  lemma GetValKeyAbsent(data: string, key: string)
    requires Fits(data) && NoMatch(data, Quoted(key), 0)
    ensures GetVal(data, key) == Success("")
  {
    FindIsNpos(data, Quoted(key), 0);
  }

  /** Once the key is found at `p` and the colon at `c`, `get_val` continues after `c`. */
  lemma GetValLocates(data: string, key: string, p: int, c: int)
    requires Fits(data)
    requires FirstMatch(data, Quoted(key), 0, p)
    requires FirstMatch(data, ":", p, c)
    ensures 0 <= c < |data| && GetVal(data, key) == ValueAfterColon(data, c)
  {
    FindIsFirst(data, Quoted(key), 0, p);
    FindIsFirst(data, ":", p, c);
  }

  /** After the colon, the first value-start character `st` decides between a quoted and a bare value. */
  lemma ValueAfterColonClassifies(data: string, c: Size, st: int)
    requires Fits(data) && c < |data|
    requires FirstOf(data, VALUE_START, c + 1, st)
    ensures ValueAfterColon(data, c) ==
      if data[st] == '"' then Success(QuotedValue(data, st)) else Success(ScalarValue(data, st))
  {
    assert AddSize(c, 1) == c + 1;
    FindFirstOfIsFirst(data, VALUE_START, c + 1, st);
    assert FindFirstOf(data, VALUE_START, AddSize(c, 1)) == st;
  }

  /**
   * The key first occurs at `p`, the first `:` after it is at `c`, the first
   * value-start character after that is a quote at `st`, and `e` is the next
   * quote after it (or the end of the blob): the value is what lies strictly
   * between the two quotes.
   */
  lemma GetValQuoted(data: string, key: string, p: int, c: int, st: int, e: int)
    requires Fits(data)
    requires FirstMatch(data, Quoted(key), 0, p)
    requires FirstMatch(data, ":", p, c)
    requires FirstOf(data, VALUE_START, c + 1, st) && data[st] == '"'
    requires FirstMatch(data, "\"", st + 1, e) || (e == |data| && NoMatch(data, "\"", st + 1))
    ensures GetVal(data, key) == Success(data[st + 1..e])
  {
    GetValLocates(data, key, p, c);
    ValueAfterColonClassifies(data, c, st);
    QuotedValueEnds(data, st, e);
  }

  lemma QuotedValueEnds(data: string, st: Size, e: int)
    requires Fits(data) && st < |data|
    requires FirstMatch(data, "\"", st + 1, e) || (e == |data| && NoMatch(data, "\"", st + 1))
    ensures QuotedValue(data, st) == data[st + 1..e]
  {
    if FirstMatch(data, "\"", st + 1, e) {
      FindIsFirst(data, "\"", st + 1, e);
    } else {
      FindIsNpos(data, "\"", st + 1);
    }
  }

  /**
   * As above, but the first value-start character at `st` is not a quote:
   * the value runs from `st` up to the next comma `e` (or the end of the blob).
   */
  lemma GetValScalar(data: string, key: string, p: int, c: int, st: int, e: int)
    requires Fits(data)
    requires FirstMatch(data, Quoted(key), 0, p)
    requires FirstMatch(data, ":", p, c)
    requires FirstOf(data, VALUE_START, c + 1, st) && data[st] != '"'
    requires FirstMatch(data, ",", st, e) || (e == |data| && NoMatch(data, ",", st))
    ensures GetVal(data, key) == Success(data[st..e])
  {
    GetValLocates(data, key, p, c);
    ValueAfterColonClassifies(data, c, st);
    ScalarValueEnds(data, st, e);
  }

  lemma ScalarValueEnds(data: string, st: Size, e: int)
    requires Fits(data) && st < |data|
    requires FirstMatch(data, ",", st, e) || (e == |data| && NoMatch(data, ",", st))
    ensures ScalarValue(data, st) == data[st..e]
  {
    if FirstMatch(data, ",", st, e) {
      FindIsFirst(data, ",", st, e);
    } else {
      FindIsNpos(data, ",", st);
    }
  }

  /**
   * No `:` after the key: the value search restarts at index 0 and always
   * finds a character `st`, no later than the key's own opening quote. The
   * value is then read from `st` exactly as after a colon: quoted when `st`
   * holds a quote, scalar otherwise.
   */
  lemma GetValNoColon(data: string, key: string, p: int)
    requires Fits(data)
    requires FirstMatch(data, Quoted(key), 0, p)
    requires NoMatch(data, ":", p)
    ensures FindFirstOf(data, VALUE_START, 0) <= p
    ensures GetVal(data, key).Success?
    ensures var st := FindFirstOf(data, VALUE_START, 0);
      st < |data| &&
      GetVal(data, key) == if data[st] == '"' then Success(QuotedValue(data, st)) else Success(ScalarValue(data, st))
  {
    FindIsFirst(data, Quoted(key), 0, p);
    FindIsNpos(data, ":", p);
    assert data[p] == Quoted(key)[0] == '"';
    assert AddSize(NPOS, 1) == 0;
  }

  /**
   * `get_val` reads out of range exactly when the key occurs, a `:` follows
   * it, and no value-start character follows that `:`.
   */
  lemma GetValFaultIff(data: string, key: string)
    requires Fits(data)
    ensures GetVal(data, key).Failure? <==>
      exists p, c :: FirstMatch(data, Quoted(key), 0, p) && FirstMatch(data, ":", p, c)
                     && NoneOf(data, VALUE_START, c + 1)
  {
    var q := Quoted(key);
    var p := Find(data, q, 0);
    if p != NPOS {
      var c := Find(data, ":", p);
      if c != NPOS {
        assert FirstMatch(data, q, 0, p) && FirstMatch(data, ":", p, c);
        if GetVal(data, key).Failure? {
          assert NoneOf(data, VALUE_START, c + 1);
        }
      } else {
        GetValNoColon(data, key, p);
        forall p', c' | FirstMatch(data, q, 0, p') && FirstMatch(data, ":", p', c')
          ensures false
        {
          FindIsFirst(data, q, 0, p');
        }
      }
    } else {
      forall p': int | FirstMatch(data, q, 0, p') ensures false {
        FindIsFirst(data, q, 0, p');
      }
    }
    if exists p', c' :: FirstMatch(data, q, 0, p') && FirstMatch(data, ":", p', c')
                        && NoneOf(data, VALUE_START, c' + 1) {
      var p', c' :| FirstMatch(data, q, 0, p') && FirstMatch(data, ":", p', c')
                    && NoneOf(data, VALUE_START, c' + 1);
      FindIsFirst(data, q, 0, p');
      FindIsFirst(data, ":", p', c');
      FindFirstOfIsNpos(data, VALUE_START, c' + 1);
    }
  }

  // ---------- what the telemetry find returns ----------

  lemma StatFieldKeyAbsent(data: string, key: string)
    requires Fits(data) && NoMatch(data, Quoted(key), 0)
    ensures StatField(data, key) == "n/a"
  {
    FindIsNpos(data, Quoted(key), 0);
  }

  /**
   * The key first occurs at `p` and the first `:` after it is at `c`: the
   * value is the raw text after `c` up to the first comma `e` after `c`
   * (or the end of the blob), quotes and spaces included.
   */
  lemma StatFieldPresent(data: string, key: string, p: int, c: int, e: int)
    requires Fits(data)
    requires FirstMatch(data, Quoted(key), 0, p)
    requires FirstMatch(data, ":", p, c)
    requires FirstMatch(data, ",", c, e) || (e == |data| && NoMatch(data, ",", c))
    ensures StatField(data, key) == data[c + 1..e]
  {
    FindIsFirst(data, Quoted(key), 0, p);
    FindIsFirst(data, ":", p, c);
    assert data[c] == ':' by { assert data[c..c + 1] == ":" && data[c..c + 1][0] == data[c]; }
    assert StatField(data, key) == RawAfterColon(data, c);
    RawAfterColonEnds(data, c, e);
  }

  lemma RawAfterColonEnds(data: string, c: Size, e: int)
    requires Fits(data) && c < |data| && data[c] != ','
    requires FirstMatch(data, ",", c, e) || (e == |data| && NoMatch(data, ",", c))
    ensures RawAfterColon(data, c) == data[c + 1..e]
  {
    if FirstMatch(data, ",", c, e) {
      FindIsFirst(data, ",", c, e);
    } else {
      FindIsNpos(data, ",", c);
    }
  }

  /**
   * The key occurs but no `:` follows it: the colon position is `npos`, the
   * comma search from `npos` fails too, and `substr(npos + 1, npos - npos - 1)`
   * is `substr(0, npos)`, the whole blob.
   */
  lemma StatFieldNoColon(data: string, key: string, p: int)
    requires Fits(data)
    requires FirstMatch(data, Quoted(key), 0, p)
    requires NoMatch(data, ":", p)
    ensures StatField(data, key) == data
  {
    FindIsFirst(data, Quoted(key), 0, p);
    FindIsNpos(data, ":", p);
  }

  // ---------- what fetch_stats writes ----------

  /** The four telemetry keys, in the order `fetch_stats` scans them. */
  datatype StatKey = Cpu | Gpu | TempCpu | TempGpu

  function KeyName(k: StatKey): string {
    match k
    case Cpu => "cpu"
    case Gpu => "gpu"
    case TempCpu => "temp_cpu"
    case TempGpu => "temp_gpu"
  }

  /** The output `fetch_stats` writes for a key. */
  function Reading(t: Telemetry, k: StatKey): string {
    match k
    case Cpu => t.cpu
    case Gpu => t.gpu
    case TempCpu => t.tempCpu
    case TempGpu => t.tempGpu
  }

  /** An output whose key is missing from the blob shows `n/a`. */
  lemma FetchStatsKeyAbsent(data: string, k: StatKey)
    requires Fits(data) && NoMatch(data, Quoted(KeyName(k)), 0)
    ensures Reading(FetchStats(data), k) == "n/a"
  {
    StatFieldKeyAbsent(data, KeyName(k));
  }

  /**
   * An output whose key first occurs at `p`, with the first `:` after it at
   * `c`, shows the raw text after `c` up to the next comma `e` (or the end
   * of the blob).
   */
  lemma FetchStatsPresent(data: string, k: StatKey, p: int, c: int, e: int)
    requires Fits(data)
    requires FirstMatch(data, Quoted(KeyName(k)), 0, p)
    requires FirstMatch(data, ":", p, c)
    requires FirstMatch(data, ",", c, e) || (e == |data| && NoMatch(data, ",", c))
    ensures c + 1 <= e <= |data| && Reading(FetchStats(data), k) == data[c + 1..e]
  {
    StatFieldPresent(data, KeyName(k), p, c, e);
  }
}
