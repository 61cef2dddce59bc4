/**
 * The CSV data loader (librichard/src/csv_data_loader.cpp). Each line of
 * the stream is a label followed by comma-separated values; a sample holds
 * `inputSize` values in a vector of shape (`inputSize`, 1, 1).
 *
 * Reading a number (`std::stof`) followed by `normalize` is the parameter
 * `convert`: `None` where `std::stof` throws. The stream is the sequence of
 * lines `std::getline` yields, and the loader's read position is the index
 * of the next line.
 */
module CsvLoading {
  import opened Wrappers
  import opened Utils
  import opened Samples

  /** What `std::stof` throws on text that holds no number, such as an empty field. */
  const ParseError: string := "stof"

  /*
   * Tokenisation: `std::getline(ss, token, ',')` repeated while the stream is good.
   */

  /**
   * The fields of a line: the text between consecutive commas. A line
   * without commas is one field; an empty line is one empty field; a
   * trailing comma gives a last, empty, field.
   */
  function Fields(line: string): (r: seq<string>)
    ensures |r| >= 1
    ensures forall k | 0 <= k < |r| :: ',' !in r[k]
  {
    if |line| == 0 then [""]
    else
      var rest := Fields(line[1..]);
      if line[0] == ',' then [""] + rest else [[line[0]] + rest[0]] + rest[1..]
  }

  /** The fields written back out with a comma between consecutive ones. */
  function Join(fields: seq<string>): (r: string)
    requires |fields| >= 1
    ensures |r| == |fields| - 1 + CountChars(fields)
  {
    if |fields| == 1 then fields[0] else fields[0] + "," + Join(fields[1..])
  }

  function CountChars(fields: seq<string>): nat {
    if |fields| == 0 then 0 else |fields[0]| + CountChars(fields[1..])
  }

  /** Splitting a line and joining its fields gives the line back. */
  lemma {:induction false} JoinFields(line: string)
    ensures Join(Fields(line)) == line
  {
    if |line| > 0 {
      JoinFields(line[1..]);
      var rest := Fields(line[1..]);
      if line[0] != ',' && |rest| > 1 {
        assert rest == [rest[0]] + rest[1..];
        assert Join(rest) == rest[0] + "," + Join(rest[1..]);
      }
      assert line == [line[0]] + line[1..];
    }
  }

  /** Comma-free fields joined and split again are the same fields. */
  lemma {:induction false} FieldsJoin(fields: seq<string>)
    requires |fields| >= 1 && forall k | 0 <= k < |fields| :: ',' !in fields[k]
    ensures Fields(Join(fields)) == fields
  {
    if |fields| == 1 {
      FieldsOfText(fields[0]);
    } else {
      FieldsJoin(fields[1..]);
      FieldsBefore(fields[0], Join(fields[1..]));
      assert [fields[0]] + fields[1..] == fields;
    }
  }

  lemma {:induction false} FieldsOfText(s: string)
    requires ',' !in s
    ensures Fields(s) == [s]
  {
    if |s| > 0 {
      FieldsOfText(s[1..]);
      assert [s[0]] + s[1..] == s;
    }
  }

  lemma {:induction false} FieldsBefore(s: string, t: string)
    requires ',' !in s
    ensures Fields(s + "," + t) == [s] + Fields(t)
  {
    if |s| == 0 {
      assert s + "," + t == [','] + t;
      assert (s + "," + t)[1..] == t;
    } else {
      var line := s + "," + t;
      FieldsBefore(s[1..], t);
      assert line[1..] == s[1..] + "," + t;
      var rest := Fields(line[1..]);
      assert rest[0] == s[1..] && rest[1..] == Fields(t);
      assert line[0] == s[0] && [s[0]] + s[1..] == s;
    }
  }

  /*
   * One line.
   */

  /** Every value field the loop reaches, fields 1 to `inputSize`, converts. */
  ghost predicate ValuesConvert(fields: seq<string>, inputSize: nat, convert: string -> Option<real>) {
    forall j | 1 <= j < |fields| && j <= inputSize :: convert(fields[j]).Some?
  }

  /**
   * What a line yields, stated field by field:
   * - an empty first field throws where `std::stof` reads it as a value;
   * - a value field among the first `inputSize` that does not convert throws;
   * - more than `inputSize` value fields throw "Input too large";
   * - otherwise the sample's label is the first field and value `j` is the
   *   conversion of field `j + 1`, or 0 past the last field.
   */
  ghost function ParsedLine(fields: seq<string>, inputSize: nat, convert: string -> Option<real>): (r: Result<Sample>)
    requires |fields| >= 1
    ensures r.Ok? ==> WellShaped(r.value) && r.value.shape == [inputSize, 1, 1] && |r.value.classLabel| > 0
  {
    if |fields[0]| == 0 then Err(ParseError)
    else if !ValuesConvert(fields, inputSize, convert) then Err(ParseError)
    else if |fields| > inputSize + 1 then Err("Input too large")
    else Ok(Sample(fields[0], [inputSize, 1, 1],
      seq(inputSize, j requires 0 <= j < inputSize => if j + 1 < |fields| then convert(fields[j + 1]).value else 0.0)))
  }

  /** The loop over fields after `i` iterations without a throw. */
  ghost predicate LineSoFar(fields: seq<string>, inputSize: nat, convert: string -> Option<real>, i: nat, name: string, v: seq<real>)
    requires i <= |fields|
  {
    |v| == inputSize && i <= inputSize + 1 &&
    (i > 0 ==> |fields[0]| > 0 && name == fields[0]) &&
    (forall j | 1 <= j < i :: convert(fields[j]).Some?) &&
    (forall j | 0 <= j < inputSize :: v[j] == if j + 1 < i then convert(fields[j + 1]).value else 0.0)
  }

  /** The token loop of `loadSamples` for one line. */
  method ParseLine(line: string, inputSize: nat, convert: string -> Option<real>) returns (r: Result<Sample>)
    ensures r == ParsedLine(Fields(line), inputSize, convert)
  {
    var fields := Fields(line);
    var name := "_";
    var v := seq(inputSize, _ => 0.0);
    var i := 0;
    while i < |fields|
      invariant i <= |fields| && LineSoFar(fields, inputSize, convert, i, name, v)
    {
      if i > inputSize {
        assert ValuesConvert(fields, inputSize, convert);
        return Err("Input too large");
      }
      var token := fields[i];
      if i == 0 && |token| > 0 {
        name := token;
      } else if i == 0 {
        return Err(ParseError);
      } else {
        var value := convert(token);
        if value.None? {
          return Err(ParseError);
        }
        v := v[i - 1 := value.value];
      }
      i := i + 1;
    }
    assert ValuesConvert(fields, inputSize, convert);
    ghost var expected := seq(inputSize, j requires 0 <= j < inputSize => if j + 1 < |fields| then convert(fields[j + 1]).value else 0.0);
    assert forall j | 0 <= j < inputSize :: v[j] == expected[j];
    assert v == expected;
    return Ok(Sample(name, [inputSize, 1, 1], v));
  }

  /** The example line splits into its four fields. */
  lemma ExampleFields(line: string)
    requires line == "1,0,255,128"
    ensures Fields(line) == ["1", "0", "255", "128"]
  {
    var fields := ["1", "0", "255", "128"];
    FieldsJoin(fields);
    assert fields[1..][1..][1..] == ["128"];
    assert Join(fields[1..][1..]) == "255,128";
    assert Join(fields) == line;
  }

  /** The example line of the library's own test: one label and three values. */
  lemma ExampleLine(convert: string -> Option<real>, line: string)
    requires line == "1,0,255,128"
    requires convert("0").Some? && convert("255").Some? && convert("128").Some?
    ensures ParsedLine(Fields(line), 3, convert) ==
      Ok(Sample("1", [3, 1, 1], [convert("0").value, convert("255").value, convert("128").value]))
  {
    var fields := ["1", "0", "255", "128"];
    ExampleFields(line);
    assert ValuesConvert(fields, 3, convert);
    var expected := [convert("0").value, convert("255").value, convert("128").value];
    var got := seq(3, j requires 0 <= j < 3 => if j + 1 < |fields| then convert(fields[j + 1]).value else 0.0);
    assert got == expected;
  }

  /*
   * The stream.
   */

  /** What each line of the stream yields on its own. */
  ghost function ParsedLines(lines: seq<string>, inputSize: nat, convert: string -> Option<real>): (r: seq<Result<Sample>>)
    ensures |r| == |lines|
    ensures forall k | 0 <= k < |lines| :: r[k] == ParsedLine(Fields(lines[k]), inputSize, convert)
  {
    seq(|lines|, k requires 0 <= k < |lines| => ParsedLine(Fields(lines[k]), inputSize, convert))
  }

  /**
   * What `loadSamples` returns reading from line `pos`, given what each
   * line yields, with `want` samples still to fetch, and where the stream
   * is left: the loop stops at the end of the stream, after the first line
   * that throws, or after the sample that reaches the fetch size (so
   * always after at least one).
   */
  function Fetch(parsed: seq<Result<Sample>>, pos: nat, want: nat): (r: (Result<seq<Sample>>, nat))
    requires pos <= |parsed|
    ensures pos <= r.1 <= |parsed|
    decreases |parsed| - pos
  {
    if pos == |parsed| then (Ok([]), pos)
    else
      match parsed[pos]
      case Err(m) => (Err(m), pos + 1)
      case Ok(s) =>
        if want <= 1 then (Ok([s]), pos + 1)
        else Prepend([s], Fetch(parsed, pos + 1, want - 1))
  }

  /** Samples read before a fetch, put in front of what it returns. */
  function Prepend(samples: seq<Sample>, f: (Result<seq<Sample>>, nat)): (r: (Result<seq<Sample>>, nat))
    ensures r.1 == f.1 && r.0.Ok? == f.0.Ok?
    ensures f.0.Ok? ==> r.0.value == samples + f.0.value
    ensures f.0.Err? ==> r.0 == f.0
  {
    if f.0.Ok? then (Ok(samples + f.0.value), f.1) else f
  }

  lemma PrependNothing(f: (Result<seq<Sample>>, nat))
    ensures Prepend([], f) == f
  {
    if f.0.Ok? {
      assert [] + f.0.value == f.0.value;
    }
  }

  lemma PrependTwice(a: seq<Sample>, b: seq<Sample>, f: (Result<seq<Sample>>, nat))
    ensures Prepend(a, Prepend(b, f)) == Prepend(a + b, f)
  {
    if f.0.Ok? {
      assert a + (b + f.0.value) == (a + b) + f.0.value;
    }
  }

  /**
   * A fetch that succeeds returns the samples of the lines it consumed, in
   * order: no more than `want` (one if `want` is 0), and fewer only at the
   * end of the stream.
   */
  lemma {:induction false} FetchOk(parsed: seq<Result<Sample>>, pos: nat, want: nat)
    requires pos <= |parsed|
    ensures var (r, p) := Fetch(parsed, pos, want);
      r.Ok? ==> p == pos + |r.value| && |r.value| <= (if want == 0 then 1 else want)
    ensures var (r, p) := Fetch(parsed, pos, want);
      r.Ok? && |r.value| < want ==> p == |parsed|
    ensures var (r, p) := Fetch(parsed, pos, want);
      r.Ok? ==> forall k | 0 <= k < |r.value| :: parsed[pos + k] == Ok(r.value[k])
    decreases |parsed| - pos
  {
    if pos < |parsed| && parsed[pos].Ok? && want > 1 {
      FetchOk(parsed, pos + 1, want - 1);
      var s := parsed[pos].value;
      var rest := Fetch(parsed, pos + 1, want - 1);
      if rest.0.Ok? {
        var all := [s] + rest.0.value;
        assert Fetch(parsed, pos, want).0.value == all;
        forall k | 0 <= k < |all|
          ensures parsed[pos + k] == Ok(all[k])
        {
          if k > 0 {
            assert all[k] == rest.0.value[k - 1];
            assert pos + k == (pos + 1) + (k - 1);
          }
        }
      }
    }
  }

  /** A fetch that fails stops just after the first line that throws, with its message. */
  lemma {:induction false} FetchErr(parsed: seq<Result<Sample>>, pos: nat, want: nat)
    requires pos <= |parsed|
    ensures var (r, p) := Fetch(parsed, pos, want);
      r.Err? ==> pos < p && parsed[p - 1] == Err(r.message)
    ensures var (r, p) := Fetch(parsed, pos, want);
      r.Err? ==> forall k | pos <= k < p - 1 :: parsed[k].Ok?
    decreases |parsed| - pos
  {
    if pos < |parsed| && parsed[pos].Ok? && want > 1 {
      FetchErr(parsed, pos + 1, want - 1);
    }
  }

  /** A stream of one line yields that line's sample, or its error, whatever the fetch size. */
  lemma OneLineStream(line: string, want: nat, inputSize: nat, convert: string -> Option<real>)
    ensures var parsed := ParsedLine(Fields(line), inputSize, convert);
      Fetch(ParsedLines([line], inputSize, convert), 0, want) == (if parsed.Ok? then Ok([parsed.value]) else Err(parsed.message), 1)
  {
    var parsed := ParsedLines([line], inputSize, convert);
    if parsed[0].Ok? && want > 1 {
      assert Fetch(parsed, 1, want - 1) == (Ok([]), 1);
      assert [parsed[0].value] + [] == [parsed[0].value];
    }
  }

  /** The fetch loop's invariant: what is read so far, in front of the rest of the fetch, is the whole fetch. */
  ghost predicate FetchedSoFar(parsed: seq<Result<Sample>>, start: nat, pos: nat, fetchSize: nat, samples: seq<Sample>) {
    start <= pos <= |parsed| && |samples| == pos - start && (|samples| < fetchSize || |samples| == 0) &&
    Fetch(parsed, start, fetchSize) == Prepend(samples, Fetch(parsed, pos, fetchSize - |samples|))
  }

  lemma FetchedNext(parsed: seq<Result<Sample>>, start: nat, pos: nat, fetchSize: nat, samples: seq<Sample>, s: Sample)
    requires FetchedSoFar(parsed, start, pos, fetchSize, samples) && pos < |parsed| && parsed[pos] == Ok(s)
    ensures |samples| + 1 >= fetchSize ==> Fetch(parsed, start, fetchSize) == (Ok(samples + [s]), pos + 1)
    ensures |samples| + 1 < fetchSize ==> FetchedSoFar(parsed, start, pos + 1, fetchSize, samples + [s])
  {
    var want := fetchSize - |samples|;
    if want > 1 {
      PrependTwice(samples, [s], Fetch(parsed, pos + 1, want - 1));
    }
  }

  /**
   * Whether the loop of `loadSamples` ended because `std::getline` found
   * no line, which sets the stream's failbit, rather than by the break
   * after the sample that reaches the fetch size, or by a throw.
   */
  predicate ReadsToEnd(r: Result<seq<Sample>>, fetchSize: nat) {
    r.Ok? && (|r.value| < fetchSize || |r.value| == 0)
  }

  /** A fetch that reads to the end leaves the stream there. */
  lemma {:induction false} ReadsToEndAtEnd(parsed: seq<Result<Sample>>, pos: nat, want: nat)
    requires pos <= |parsed|
    ensures var (r, p) := Fetch(parsed, pos, want); ReadsToEnd(r, want) ==> p == |parsed|
    decreases |parsed| - pos
  {
    FetchOk(parsed, pos, want);
    if pos < |parsed| && parsed[pos].Ok? && want > 1 {
      ReadsToEndAtEnd(parsed, pos + 1, want - 1);
    }
  }

  /** The line loop of `loadSamples`, from line `start` of the stream, and whether its last `getline` failed. */
  method FetchLines(lines: seq<string>, start: nat, fetchSize: nat, inputSize: nat, convert: string -> Option<real>)
    returns (r: Result<seq<Sample>>, position: nat, failed: bool)
    requires start <= |lines|
    ensures (r, position) == Fetch(ParsedLines(lines, inputSize, convert), start, fetchSize)
    ensures failed == ReadsToEnd(r, fetchSize)
    ensures failed ==> position == |lines|
  {
    ghost var parsed := ParsedLines(lines, inputSize, convert);
    var samples: seq<Sample> := [];
    position := start;
    PrependNothing(Fetch(parsed, start, fetchSize));
    while position < |lines|
      invariant FetchedSoFar(parsed, start, position, fetchSize, samples)
      decreases |lines| - position
    {
      var s := ParseLine(lines[position], inputSize, convert);
      if s.Err? {
        return Err(s.message), position + 1, false;
      }
      FetchedNext(parsed, start, position, fetchSize, samples, s.value);
      position := position + 1;
      samples := samples + [s.value];
      if |samples| >= fetchSize {
        return Ok(samples), position, false;
      }
    }
    assert samples + [] == samples;
    return Ok(samples), position, true;
  }

  /**
   * Where `seekg(0)` leaves the stream: at the first line, unless the
   * failbit is set, in which case the seek does nothing (since C++11
   * `seekg` clears eofbit but not failbit, and fails on a stream that is
   * not good).
   */
  function Rewound(failed: bool, position: nat): (p: nat)
    ensures !failed ==> p == 0
    ensures failed ==> p == position
  {
    if failed then position else 0
  }

  /**
   * Once a fetch has read to the end, a `seekToBeginning` leaves the
   * stream there: every later fetch is empty.
   */
  lemma RewindAfterEndReadsNothing(parsed: seq<Result<Sample>>, pos: nat, want: nat, next: nat)
    requires pos <= |parsed|
    ensures var (r, p) := Fetch(parsed, pos, want);
      ReadsToEnd(r, want) ==> Fetch(parsed, Rewound(true, p), next) == (Ok([]), |parsed|)
  {
    ReadsToEndAtEnd(parsed, pos, want);
  }

  /**
   * A stream of one line that parses, with fetches of 1: the first epoch
   * reads the sample, the second fetch finds the end, and after the
   * rewind the next epoch still reads nothing.
   */
  lemma SecondEpochEmpty(line: string, inputSize: nat, convert: string -> Option<real>)
    requires ParsedLine(Fields(line), inputSize, convert).Ok?
    ensures var parsed := ParsedLines([line], inputSize, convert);
      var first := Fetch(parsed, 0, 1);
      var second := Fetch(parsed, first.1, 1);
      first.0 == Ok([ParsedLine(Fields(line), inputSize, convert).value]) && !ReadsToEnd(first.0, 1) &&
      second == (Ok([]), 1) && ReadsToEnd(second.0, 1) &&
      Fetch(parsed, Rewound(true, second.1), 1).0 == Ok([]) &&
      Fetch(parsed, Rewound(false, second.1), 1).0 == first.0
  {
    OneLineStream(line, 1, inputSize, convert);
  }

  class CsvDataLoader {
    const inputSize: nat
    const fetchSize: nat
    const convert: string -> Option<real>
    /** The lines of the stream. */
    const lines: seq<string>
    /** The index of the next line to read. */
    var position: nat
    /** The stream's failbit, set by a `getline` that finds no line. */
    var failed: bool

    ghost predicate Valid()
      reads this
    {
      position <= |lines| && (failed ==> position == |lines|)
    }

    constructor (lines: seq<string>, inputSize: nat, convert: string -> Option<real>, fetchSize: nat)
      ensures Valid() && position == 0 && !failed
      ensures this.lines == lines && this.inputSize == inputSize && this.convert == convert && this.fetchSize == fetchSize
    {
      this.lines, this.inputSize, this.convert, this.fetchSize := lines, inputSize, convert, fetchSize;
      position := 0;
      failed := false;
    }

    /** `seekToBeginning`: `seekg(0)`, which does nothing once the failbit is set. */
    method SeekToBeginning()
      requires Valid()
      modifies this
      ensures Valid() && failed == old(failed) && position == Rewound(old(failed), old(position))
    {
      if !failed {
        position := 0;
      }
    }

    /**
     * The evidently intended rewind, `clear()` before `seekg(0)`: the
     * stream is back in the state the constructor leaves it in, so the
     * next fetches are those of the first epoch.
     */
    method Rewind()
      modifies this
      ensures Valid() && position == 0 && !failed
    {
      failed := false;
      position := 0;
    }

    /**
     * `loadSamples`: reads lines until `fetchSize` samples are collected or
     * the stream ends; on a failed stream the first `getline` fails and
     * nothing is read.
     */
    method LoadSamples() returns (r: Result<seq<Sample>>)
      requires Valid()
      modifies this
      ensures Valid()
      ensures (r, position) == Fetch(ParsedLines(lines, inputSize, convert), old(position), fetchSize)
      ensures failed == (old(failed) || ReadsToEnd(r, fetchSize))
    {
      if failed {
        return Ok([]);
      }
      r, position, failed := FetchLines(lines, position, fetchSize, inputSize, convert);
    }
  }
}
