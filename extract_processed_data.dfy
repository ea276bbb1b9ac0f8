/** Reading the year lists and the output tables out of the process data,
    with the exceptions raised for malformed data. */
module ExtractProcessedData {
  import opened ProcessData

  /** The three year lists every process data holds, in the order they are read. */
  const YearKeys: seq<string> := ["full_years", "historic_years", "prospective_years"]

  /** The year lists by name. */
  type Years = map<string, seq<int>>

  predicate AllInts(items: seq<PyValue>) {
    forall i :: 0 <= i < |items| ==> items[i].PyInt?
  }

  function Ints(items: seq<PyValue>): (r: seq<int>)
    requires AllInts(items)
    ensures |r| == |items|
    ensures forall i :: 0 <= i < |items| ==> r[i] == items[i].i
  {
    seq(|items|, i requires 0 <= i < |items| => items[i].i)
  }

  /** Checking one year list `v` found under `key`. Anything but a list of
      integers is rejected with a TypeError, except that building the
      message indexes `v[0]` first: an empty string raises an IndexError and
      a dictionary or table (whose keys are names) raises a KeyError. */
  function YearList(key: string, v: PyValue): (r: Result<seq<int>>)
    ensures r.Ok? <==> v.PyList? && AllInts(v.items)
    ensures r.Ok? ==> r.value == Ints(v.items)
  {
    match v
    case PyList(items) => if AllInts(items) then Ok(Ints(items)) else Err(TypeError(NotAList(key)))
    case PyStr(s) => if s == "" then Err(IndexError) else Err(TypeError(NotAList(key)))
    case PyDict(_) => Err(KeyError)
    case PyTable(_) => Err(KeyError)
    case _ => Err(TypeError(NotAList(key)))
  }

  /** One key of the "years" dictionary: missing is a ValueError. */
  function YearsEntry(years: PyValue, key: string): Result<seq<int>> {
    match years
    case PyDict(d) => if key !in d then Err(ValueError(MissingKey(key))) else YearList(key, d[key])
    case _ => Err(TypeError(NotADict("years")))
  }

  /** The dictionary built after checking the first |keys| keys in order. */
  function YearsFrom(years: PyValue, keys: seq<string>): Result<Years> {
    if keys == [] then Ok(map[])
    else
      var acc :- YearsFrom(years, keys[..|keys| - 1]);
      var y :- YearsEntry(years, keys[|keys| - 1]);
      Ok(acc[keys[|keys| - 1] := y])
  }

  /** What `get_years` returns or raises. */
  function YearsOf(b: Bundle): Result<Years> {
    if "years" !in b then Err(KeyError) else YearsFrom(b["years"], YearKeys)
  }

  /** A well-formed "years" entry: a dictionary holding the three lists of integers. */
  predicate WellFormedYears(b: Bundle) {
    && "years" in b && b["years"].PyDict?
    && forall k :: k in YearKeys ==>
         k in b["years"].entries && b["years"].entries[k].PyList? && AllInts(b["years"].entries[k].items)
  }

  /** A failure while checking a prefix of the keys is the final outcome. */
  lemma {:induction false} YearsFromFailureSticks(years: PyValue, keys: seq<string>, j: nat)
    requires j <= |keys| && YearsFrom(years, keys[..j]).Err?
    ensures YearsFrom(years, keys) == YearsFrom(years, keys[..j])
    decreases |keys| - j
  {
    if j < |keys| {
      assert keys[..j + 1][..j] == keys[..j];
      YearsFromFailureSticks(years, keys, j + 1);
    } else {
      assert keys[..j] == keys;
    }
  }

  /** `get_years`: checks the three keys one after the other. */
  method GetYears(b: Bundle) returns (r: Result<Years>)
    ensures r == YearsOf(b)
  {
    if "years" !in b {
      return Err(KeyError);
    }
    var yearsData: Years := map[];
    var i := 0;
    while i < |YearKeys|
      invariant 0 <= i <= |YearKeys|
      invariant YearsFrom(b["years"], YearKeys[..i]) == Ok(yearsData)
    {
      assert YearKeys[..i + 1][..i] == YearKeys[..i];
      var key := YearKeys[i];
      var entry := YearsEntry(b["years"], key);
      if entry.Err? {
        YearsFromFailureSticks(b["years"], YearKeys, i + 1);
        return Err(entry.error);
      }
      yearsData := yearsData[key := entry.value];
      i := i + 1;
    }
    assert YearKeys[..i] == YearKeys;
    return Ok(yearsData);
  }

  /** The three checks written out in the order `get_years` makes them. */
  function YearsChain(years: PyValue): Result<Years> {
    var full :- YearsEntry(years, "full_years");
    var historic :- YearsEntry(years, "historic_years");
    var prospective :- YearsEntry(years, "prospective_years");
    Ok(map["full_years" := full, "historic_years" := historic, "prospective_years" := prospective])
  }

  lemma YearsFromIsChain(years: PyValue)
    ensures YearsFrom(years, YearKeys) == YearsChain(years)
  {
    var k1 := ["full_years"];
    var k2 := ["full_years", "historic_years"];
    var f := YearsEntry(years, "full_years");
    var h := YearsEntry(years, "historic_years");
    assert k1[..0] == [];
    assert YearsFrom(years, k1) == if f.Err? then Err(f.error) else Ok(map["full_years" := f.value]);
    assert k2[..1] == k1;
    assert YearsFrom(years, k2) ==
      if f.Err? then Err(f.error)
      else if h.Err? then Err(h.error)
      else Ok(map["full_years" := f.value, "historic_years" := h.value]);
    assert YearKeys[..2] == k2;
  }

  /** `get_years` succeeds exactly on well-formed data, and then returns the
      three lists unchanged under their own names and nothing else. */
  lemma YearsOfWellFormed(b: Bundle)
    ensures YearsOf(b).Ok? <==> WellFormedYears(b)
    ensures YearsOf(b).Ok? ==>
              && YearsOf(b).value.Keys == {"full_years", "historic_years", "prospective_years"}
              && forall k :: k in YearKeys ==> YearsOf(b).value[k] == Ints(b["years"].entries[k].items)
  {
    if "years" in b {
      YearsFromIsChain(b["years"]);
    }
  }

  /** The keys are checked in order: a missing "full_years" is reported
      whatever else is wrong. */
  lemma MissingFullYearsFirst(b: Bundle)
    requires "years" in b && b["years"].PyDict? && "full_years" !in b["years"].entries
    ensures YearsOf(b) == Err(ValueError(MissingKey("full_years")))
  {
    YearsFromIsChain(b["years"]);
  }

  /** An empty string as a year list escapes as an IndexError raised while
      formatting the TypeError's message. */
  lemma EmptyStringYearsIsIndexError(b: Bundle)
    requires "years" in b && b["years"].PyDict?
    requires "full_years" in b["years"].entries && b["years"].entries["full_years"] == PyStr("")
    ensures YearsOf(b) == Err(IndexError)
  {
    YearsFromIsChain(b["years"]);
  }

  /** `get_dataframe_aeromaps`: the table stored under `name`. */
  function GetDataframe(b: Bundle, name: string): (r: Result<Table>)
    ensures r.Ok? <==> name in b && b[name].PyTable?
    ensures r.Ok? ==> r.value == b[name].table
    ensures name !in b ==> r == Err(ValueError(MissingKey(name)))
    ensures name in b && !b[name].PyTable? ==> r == Err(TypeError(NotATable(name)))
  {
    if name !in b then Err(ValueError(MissingKey(name)))
    else if !b[name].PyTable? then Err(TypeError(NotATable(name)))
    else Ok(b[name].table)
  }
}
