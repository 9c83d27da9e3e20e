/** `ParkingCacheUpdaterWorker.run` of
    fgo/director/parking_cache_updater_worker.py: decide whether an
    airport's cached groundnet is stale, download it from the FlightGear
    scenery site, turn each `Parking` element into a `ParkingRecord` and
    emit the records with the airport code.

    The clock, the cache file's status, the HTTP response and the XML
    parse are parameters: `now` is `time.time()`, `cache` what the cache
    file's `stat` says, and `response` what `requests.get` answers, with
    the `Parking` elements BeautifulSoup finds in it. */
module ParkingCacheUpdater {
  import opened Wrappers
  import opened Dicts
  import opened PyValues
  import ParkingRecord

  // ---------------------------------------------------------------------
  // Freshness

  /** `60 * 24 * 60 * 60`: sixty days, in seconds. */
  const SixtyDays: real := 5184000.0

  /** The cache file of an airport: missing, or present with its
      modification time (`st_mtime`). */
  datatype Cache = Missing | Cached(mtime: real)

  /** `needs_download`: the cache is missing, or was last modified before
      `now` less sixty days. */
  predicate NeedsDownload(cache: Cache, now: real) {
    cache.Missing? || cache.mtime < now - SixtyDays
  }

  /** A cache modified at most sixty days ago is used as it is. */
  lemma FreshCacheIsKept(mtime: real, now: real)
    requires now - mtime <= SixtyDays
    ensures !NeedsDownload(Cached(mtime), now)
  {
  }

  /** A cache older than sixty days is downloaded again. */
  lemma StaleCacheIsRefreshed(mtime: real, now: real)
    requires now - mtime > SixtyDays
    ensures NeedsDownload(Cached(mtime), now)
  {
  }

  /** Once stale, a cache stays stale as time goes on. */
  lemma StaleStaysStale(cache: Cache, now: real, later: real)
    requires NeedsDownload(cache, now) && now <= later
    ensures NeedsDownload(cache, later)
  {
  }

  // ---------------------------------------------------------------------
  // The groundnet URL

  /** The scenery site's airport directory. */
  const AirportsBase: string := "http://flightgear.sourceforge.net/scenery/Airports/"

  /** `f"{airport_code}.groundnet.xml"`: the name of the cache file, and of
      the file downloaded. */
  function GroundnetFile(code: string): string {
    code + ".groundnet.xml"
  }

  /** The URL `run` downloads. The four-character form indexes
      `airport_code[2]` before the length is checked, so a code shorter
      than three characters raises IndexError; a three-character code uses
      two directory levels, any longer code three. */
  function GroundnetUrl(code: string): Result<string> {
    if |code| < 3 then Raised(IndexError)
    else if |code| == 3 then
      Ok(AirportsBase + [code[0]] + "/" + [code[1]] + "/" + GroundnetFile(code))
    else
      Ok(AirportsBase + [code[0]] + "/" + [code[1]] + "/" + [code[2]] + "/" + GroundnetFile(code))
  }

  /** One directory level per character of `p`. */
  function Directories(p: string): (r: string)
    ensures |r| == 2 * |p|
  {
    if p == [] then "" else [p[0]] + "/" + Directories(p[1..])
  }

  /** The directory levels of the URL are the code's leading characters,
      two of them for a three-character code and three for a longer one,
      and the URL ends with the cache file's name. */
  lemma UrlLayout(code: string)
    ensures GroundnetUrl(code).Raised? <==> |code| < 3
    ensures GroundnetUrl(code).Raised? ==> GroundnetUrl(code).exception == IndexError
    ensures |code| >= 3 ==>
      var levels := if |code| == 3 then 2 else 3;
      GroundnetUrl(code) == Ok(AirportsBase + Directories(code[..levels]) + GroundnetFile(code))
  {
    if |code| >= 3 {
      var a, b, c := [code[0]] + "/", [code[1]] + "/", [code[2]] + "/";
      var two, three := code[..2], code[..3];
      assert Directories(two[1..][1..]) == "";
      assert Directories(two[1..]) == b;
      assert Directories(two) == a + b;
      assert Directories(three[1..][1..][1..]) == "";
      assert Directories(three[1..][1..]) == c;
      assert Directories(three[1..]) == b + c;
      assert Directories(three) == a + b + c;
      if |code| == 3 {
        assert GroundnetUrl(code).value == AirportsBase + (a + b) + GroundnetFile(code);
      } else {
        assert GroundnetUrl(code).value == AirportsBase + (a + b + c) + GroundnetFile(code);
      }
    }
  }

  // ---------------------------------------------------------------------
  // int()

  predicate IsDigit(c: char) {
    '0' <= c <= '9'
  }

  /** The value of a decimal digit. */
  function DigitValue(c: char): (d: nat)
    requires IsDigit(c)
    ensures d == c as int - '0' as int
  {
    c as int - '0' as int
  }

  /** The number a run of decimal digits denotes. */
  function DigitsValue(s: string): nat
    requires forall k :: 0 <= k < |s| ==> IsDigit(s[k])
  {
    if s == [] then 0 else DigitsValue(s[..|s| - 1]) * 10 + DigitValue(s[|s| - 1])
  }

  /** The number a non-empty run of digits denotes; None for anything
      else. */
  function Digits(d: string): Option<nat> {
    if d != [] && forall k :: 0 <= k < |d| ==> IsDigit(d[k]) then Some(DigitsValue(d)) else None
  }

  /** The number an optionally signed run of digits denotes. */
  function SignedDigits(t: string): Option<int> {
    if t != [] && t[0] == '-' then
      match Digits(t[1..])
      case Some(n) => Some(-(n as int))
      case None => None
    else if t != [] && t[0] == '+' then Digits(t[1..])
    else Digits(t)
  }

  /** `int(s)` with base 10: surrounding whitespace, an optional sign and
      at least one ASCII digit; anything else raises ValueError. */
  function ParseInt(s: string): Result<int> {
    match SignedDigits(Strip(s))
    case Some(i) => Ok(i)
    case None => Raised(ValueError("invalid literal for int() with base 10: " + Repr(VStr(s))))
  }

  /** Reading back the digits `str` writes gives the number. */
  lemma {:induction false} DigitsOfNat(n: nat)
    ensures forall k :: 0 <= k < |NatToString(n)| ==> IsDigit(NatToString(n)[k])
    ensures DigitsValue(NatToString(n)) == n
    decreases n
  {
    var s := NatToString(n);
    if n < 10 {
      assert s == [DigitChar(n)];
      assert s[..0] == [];
    } else {
      DigitsOfNat(n / 10);
      assert s == NatToString(n / 10) + [DigitChar(n % 10)];
      assert s[..|s| - 1] == NatToString(n / 10);
    }
  }

  /** A string with no whitespace at either end is its own strip. */
  lemma StripUnpadded(s: string)
    requires s != [] && !IsSpace(s[0]) && !IsSpace(s[|s| - 1])
    ensures Strip(s) == s
  {
  }

  /** A run of digits parses as the number it denotes. */
  lemma ParseUnsigned(s: string)
    requires s != [] && forall k :: 0 <= k < |s| ==> IsDigit(s[k])
    ensures ParseInt(s) == Ok(DigitsValue(s))
  {
    StripUnpadded(s);
    assert s[0] != '-' && s[0] != '+';
    assert Digits(s) == Some(DigitsValue(s));
    assert SignedDigits(Strip(s)) == Some(DigitsValue(s) as int);
  }

  /** Text without surrounding whitespace parses as the number its sign
      and digits denote. */
  lemma ParsesUnpadded(t: string, i: int)
    requires Strip(t) == t && SignedDigits(t) == Some(i)
    ensures ParseInt(t) == Ok(i)
  {
  }

  /** A leading minus negates the digits after it. */
  lemma MinusNegates(t: string, n: nat)
    requires t != [] && t[0] == '-' && Digits(t[1..]) == Some(n)
    ensures SignedDigits(t) == Some(-(n as int))
  {
  }

  /** A minus sign before a run of digits negates it. */
  lemma NegativeDigits(digits: string)
    requires digits != [] && forall k :: 0 <= k < |digits| ==> IsDigit(digits[k])
    ensures SignedDigits("-" + digits) == Some(-(DigitsValue(digits) as int))
  {
    var t := "-" + digits;
    assert t[0] == '-' && t[1..] == digits;
    assert Digits(t[1..]) == Some(DigitsValue(digits));
    MinusNegates(t, DigitsValue(digits));
  }

  /** `int(str(n)) == n` for a natural number. */
  lemma NatRoundTrip(n: nat)
    ensures ParseInt(NatToString(n)) == Ok(n)
  {
    DigitsOfNat(n);
    ParseUnsigned(NatToString(n));
  }

  /** A minus sign before a run of digits parses as the negated number. */
  lemma NegatedDigitsParse(digits: string, n: nat)
    requires Digits(digits) == Some(n)
    ensures ParseInt("-" + digits) == Ok(-(n as int))
  {
    var s := "-" + digits;
    assert s[0] == '-' && s[1..] == digits;
    MinusNegates(s, n);
    assert IsDigit(digits[|digits| - 1]);
    assert s[|s| - 1] == digits[|digits| - 1];
    StripUnpadded(s);
    ParsesUnpadded(s, -(n as int));
  }

  /** `int(str(-n)) == -n` for a natural number `n`. */
  lemma NegativeRoundTrip(n: nat)
    ensures ParseInt("-" + NatToString(n)) == Ok(-(n as int))
  {
    var digits := NatToString(n);
    DigitsOfNat(n);
    assert Digits(digits) == Some(n);
    NegatedDigitsParse(digits, n);
  }

  /** `int(str(i)) == i` */
  lemma IntRoundTrip(i: int)
    ensures ParseInt(IntToString(i)) == Ok(i)
  {
    if i < 0 {
      NegativeRoundTrip(-i);
    } else {
      NatRoundTrip(i);
    }
  }

  /** Text that is not a number, such as an empty index, raises ValueError. */
  lemma ParseIntRejects(s: string)
    requires Strip(s) == [] || Strip(s) == "-" || Strip(s) == "+"
    ensures ParseInt(s).Raised? && ParseInt(s).exception.ValueError?
  {
    var t := Strip(s);
    if t == [] {
      assert Digits(t) == None;
    } else {
      assert t[1..] == [] && Digits(t[1..]) == None;
    }
    assert SignedDigits(t) == None;
  }

  // ---------------------------------------------------------------------
  // One record

  /** The attributes of one `Parking` element, in document order. */
  type Attributes = Dict<string>

  /** `xml_record[key]`: a missing attribute raises KeyError. */
  function Attribute(x: Attributes, key: string): (r: Result<string>)
    ensures r.Ok? <==> key in Keys(x)
  {
    match Get(x, key)
    case Some(v) => Ok(v)
    case None => Raised(KeyError(key))
  }

  /** The record `run` appends for one `Parking` element of airport `code`,
      evaluated in the source's order: the stripped airline codes, the
      stripped number (`''` when absent), then the constructor's arguments
      `int(index)`, `type` and `name`. */
  function RecordOf(code: string, x: Attributes): Result<Dict<Value>> {
    var airlineCodes :- Attribute(x, "airlineCodes");
    var stripped := Strip(airlineCodes);
    var number := match Get(x, "number") case Some(n) => Strip(n) case None => "";
    var indexText :- Attribute(x, "index");
    var index :- ParseInt(indexText);
    var parkingType :- Attribute(x, "type");
    var name :- Attribute(x, "name");
    Ok(ParkingRecord.Make(code, index, parkingType, name, number, stripped, |stripped| > 0))
  }

  /** A record is made exactly when the element has airline codes, an
      integer index, a type and a name. It belongs to the airport; its
      airline codes are stripped and it has airline codes exactly when
      they are not empty; its number is stripped and `''` when absent; its
      index is the parsed one. */
  lemma RecordRules(code: string, x: Attributes)
    ensures RecordOf(code, x).Ok? <==>
      "airlineCodes" in Keys(x) && "index" in Keys(x) && ParseInt(Get(x, "index").value).Ok? &&
      "type" in Keys(x) && "name" in Keys(x)
    ensures RecordOf(code, x).Ok? ==>
      var r := RecordOf(code, x).value;
      var codes := Strip(Get(x, "airlineCodes").value);
      Keys(r) == ParkingRecord.Fields &&
      Get(r, "airport_code") == Some(VStr(code)) &&
      Get(r, "index") == Some(VInt(ParseInt(Get(x, "index").value).value)) &&
      Get(r, "parking_type") == Some(VStr(Get(x, "type").value)) &&
      Get(r, "name") == Some(VStr(Get(x, "name").value)) &&
      Get(r, "airline_codes") == Some(VStr(codes)) &&
      (codes != [] ==> !IsSpace(codes[0]) && !IsSpace(codes[|codes| - 1])) &&
      Get(r, "has_airline_codes") == Some(VBool(codes != "")) &&
      Get(r, "number") == Some(VStr(if "number" in Keys(x) then Strip(Get(x, "number").value) else ""))
  {
    if RecordOf(code, x).Ok? {
      var codes := Strip(Get(x, "airlineCodes").value);
      var number := match Get(x, "number") case Some(n) => Strip(n) case None => "";
      ParkingRecord.MakeFields(code, ParseInt(Get(x, "index").value).value, Get(x, "type").value,
                               Get(x, "name").value, number, codes, |codes| > 0);
    }
  }

  // ---------------------------------------------------------------------
  // All records

  /** The results of `f` on every element, or the exception of the first
      element on which it raises. */
  function Collect<T>(f: Attributes -> Result<T>, xs: seq<Attributes>): Result<seq<T>>
    decreases |xs|
  {
    if xs == [] then Ok([])
    else
      var init :- Collect(f, xs[..|xs| - 1]);
      var last :- f(xs[|xs| - 1]);
      Ok(init + [last])
  }

  /** One result per element, each from its element, in order, exactly
      when `f` returns on every element. */
  lemma {:induction false} CollectOnePerElement<T>(f: Attributes -> Result<T>, xs: seq<Attributes>)
    ensures Collect(f, xs).Ok? <==> forall i :: 0 <= i < |xs| ==> f(xs[i]).Ok?
    ensures Collect(f, xs).Ok? ==>
      |Collect(f, xs).value| == |xs| &&
      forall i :: 0 <= i < |xs| ==> Collect(f, xs).value[i] == f(xs[i]).value
    decreases |xs|
  {
    if xs != [] {
      var init := xs[..|xs| - 1];
      var last := xs[|xs| - 1];
      CollectOnePerElement(f, init);
      assert forall i :: 0 <= i < |init| ==> init[i] == xs[i];
      if Collect(f, xs).Ok? {
        var r := Collect(f, xs).value;
        assert r == Collect(f, init).value + [f(last).value];
        forall i | 0 <= i < |xs| ensures r[i] == f(xs[i]).value {
          if i < |init| {
            assert r[i] == Collect(f, init).value[i];
          }
        }
      } else if Collect(f, init).Ok? {
        assert f(last).Raised?;
      }
    }
  }

  /** Otherwise `Collect` raises what `f` raises on the first element on
      which it raises. */
  lemma {:induction false} CollectFirstFailure<T>(f: Attributes -> Result<T>, xs: seq<Attributes>)
    requires Collect(f, xs).Raised?
    ensures exists j :: 0 <= j < |xs| && f(xs[j]) == Raised(Collect(f, xs).exception) &&
                        forall i :: 0 <= i < j ==> f(xs[i]).Ok?
    decreases |xs|
  {
    var init := xs[..|xs| - 1];
    assert forall i :: 0 <= i < |init| ==> init[i] == xs[i];
    if Collect(f, init).Raised? {
      CollectFirstFailure(f, init);
      var j :| 0 <= j < |init| && f(init[j]) == Raised(Collect(f, init).exception) &&
        forall i :: 0 <= i < j ==> f(init[i]).Ok?;
      assert f(xs[j]) == Raised(Collect(f, xs).exception);
    } else {
      CollectOnePerElement(f, init);
      assert f(xs[|xs| - 1]) == Raised(Collect(f, xs).exception);
    }
  }

  /** One more element on which `f` returns adds its result. */
  lemma CollectStep<T>(f: Attributes -> Result<T>, xs: seq<Attributes>, i: nat)
    requires i < |xs| && Collect(f, xs[..i]).Ok? && f(xs[i]).Ok?
    ensures Collect(f, xs[..i + 1]) == Ok(Collect(f, xs[..i]).value + [f(xs[i]).value])
  {
    assert xs[..i + 1][..i] == xs[..i];
  }

  /** Once the elements read so far raise, `Collect` raises the same on
      all of them. */
  lemma {:induction false} CollectStopsAtFailure<T>(f: Attributes -> Result<T>, xs: seq<Attributes>, i: nat)
    requires i <= |xs| && Collect(f, xs[..i]).Raised?
    ensures Collect(f, xs) == Collect(f, xs[..i])
    decreases |xs| - i
  {
    if i == |xs| {
      assert xs[..i] == xs;
    } else {
      assert xs[..i + 1][..i] == xs[..i];
      CollectStopsAtFailure(f, xs, i + 1);
    }
  }

  /** The record of one element of airport `code`. */
  function RecordMaker(code: string): Attributes -> Result<Dict<Value>> {
    x => RecordOf(code, x)
  }

  /** The records of every `Parking` element, in document order, or the
      exception of the first element that yields none. */
  function Records(code: string, xs: seq<Attributes>): Result<seq<Dict<Value>>> {
    Collect(RecordMaker(code), xs)
  }

  // ---------------------------------------------------------------------
  // run

  /** What `requests.get(url)` answers: the status code, the body, and the
      `Parking` elements of the body's `groundnet.parkingList` as
      BeautifulSoup finds them (AttributeError when either element is
      missing). */
  datatype Response = Response(statusCode: int, text: string, parkings: Result<seq<Attributes>>)

  /** What one run does: the URL it requests (if any), the text it writes
      to the cache file (if any), and the `parking_cache_ready` signal it
      emits with the airport code and the records, or the exception that
      ends it before the signal. */
  datatype RunOutcome = RunOutcome(requested: Option<string>, written: Option<string>,
                                   emitted: Result<(string, seq<Dict<Value>>)>)

  /** `run`, with the records as `Records` makes them. */
  function RunSpec(code: string, cache: Cache, now: real, response: Response): RunOutcome {
    if !NeedsDownload(cache, now) then RunOutcome(None, None, Ok((code, [])))
    else
      match GroundnetUrl(code)
      case Raised(x) => RunOutcome(None, None, Raised(x))
      case Ok(url) =>
        if response.statusCode != 200 then RunOutcome(Some(url), None, Ok((code, [])))
        else
          var emitted := match response.parkings
            case Raised(x) => Raised(x)
            case Ok(xs) =>
              match Records(code, xs)
              case Raised(x) => Raised(x)
              case Ok(records) => Ok((code, records));
          RunOutcome(Some(url), Some(response.text), emitted)
  }

  /** The loop of `run` over the `Parking` elements, appending one record
      per element. */
  method AppendRecords(code: string, xs: seq<Attributes>) returns (r: Result<seq<Dict<Value>>>)
    ensures r == Records(code, xs)
  {
    var records: seq<Dict<Value>> := [];
    var i := 0;
    while i < |xs|
      invariant 0 <= i <= |xs|
      invariant Collect(RecordMaker(code), xs[..i]) == Ok(records)
    {
      var record := RecordOf(code, xs[i]);
      if record.Raised? {
        assert xs[..i + 1][..i] == xs[..i];
        CollectStopsAtFailure(RecordMaker(code), xs, i + 1);
        return Raised(record.exception);
      }
      CollectStep(RecordMaker(code), xs, i);
      records := records + [record.value];
      i := i + 1;
    }
    assert xs[..|xs|] == xs;
    r := Ok(records);
  }

  /** `run` */
  method Run(code: string, cache: Cache, now: real, response: Response) returns (outcome: RunOutcome)
    ensures outcome == RunSpec(code, cache, now, response)
  {
    var needsDownload := cache.Missing? || cache.mtime < now - SixtyDays;
    if !needsDownload {
      return RunOutcome(None, None, Ok((code, [])));
    }
    var url := GroundnetUrl(code);
    if url.Raised? {
      return RunOutcome(None, None, Raised(url.exception));
    }
    if response.statusCode != 200 {
      return RunOutcome(Some(url.value), None, Ok((code, [])));
    }
    var written := Some(response.text);
    if response.parkings.Raised? {
      return RunOutcome(Some(url.value), written, Raised(response.parkings.exception));
    }
    var records := AppendRecords(code, response.parkings.value);
    if records.Raised? {
      return RunOutcome(Some(url.value), written, Raised(records.exception));
    }
    outcome := RunOutcome(Some(url.value), written, Ok((code, records.value)));
  }

  /** Without a download nothing is requested or written and the signal
      carries no records, whatever the code; the signal, when emitted,
      always carries the airport code and only records of that airport. */
  lemma RunEmitsCode(code: string, cache: Cache, now: real, response: Response)
    ensures var o := RunSpec(code, cache, now, response);
      (!NeedsDownload(cache, now) ==> o == RunOutcome(None, None, Ok((code, [])))) &&
      (o.emitted.Ok? ==>
        (o.emitted.value.0 == code &&
         forall r :: r in o.emitted.value.1 ==> Get(r, "airport_code") == Some(VStr(code))))
  {
    var o := RunSpec(code, cache, now, response);
    if o.emitted.Ok? && o.emitted.value.1 != [] {
      var xs := response.parkings.value;
      CollectOnePerElement(RecordMaker(code), xs);
      forall r | r in o.emitted.value.1 ensures Get(r, "airport_code") == Some(VStr(code)) {
        var i :| 0 <= i < |xs| && o.emitted.value.1[i] == r;
        RecordRules(code, xs[i]);
      }
    }
  }

  /** A failed download writes no cache and emits no records; only a
      stale cache with a code shorter than three characters, or a
      successful download whose document or elements are malformed, ends
      the run without the signal. */
  lemma RunFailures(code: string, cache: Cache, now: real, response: Response)
    ensures var o := RunSpec(code, cache, now, response);
      (NeedsDownload(cache, now) && |code| >= 3 && response.statusCode != 200 ==>
        o.written == None && o.emitted == Ok((code, []))) &&
      (o.emitted.Raised? <==>
        NeedsDownload(cache, now) &&
        (|code| < 3 || (response.statusCode == 200 &&
          (response.parkings.Raised? || Records(code, response.parkings.value).Raised?)))) &&
      (o.written.Some? <==> NeedsDownload(cache, now) && |code| >= 3 && response.statusCode == 200)
  {
    UrlLayout(code);
  }
}
