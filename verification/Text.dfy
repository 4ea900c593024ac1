/**
 The text protocol of the recipes: a request is a keyword, a blank, a decimal
 number and a newline; a reply is one line. Lines are cut out of a byte stream by
 `read_until` followed by `getline`.
 */
module Text {

  const COMP_KEYWORD: string := "EMULATE_LONG_COMP_OP"
  const CALC_KEYWORD: string := "EMULATE_LONG_CALC_OP"

  datatype Option<+T> = None | Some(value: T)

  // ---- lines -----------------------------------------------------------------

  /** What `getline` extracts from a buffer: everything before the first delimiter. */
  function LineOf(data: string, delim: char := '\n'): (line: string)
    ensures delim !in line && line <= data
    ensures delim in data ==> line + [delim] <= data
    ensures delim !in data ==> line == data
  {
    if data == [] || data[0] == delim then []
    else [data[0]] + LineOf(data[1..], delim)
  }

  /** A line is determined by any stream that starts with it and its delimiter. */
  lemma {:induction false} LineOfPrefix(line: string, rest: string, delim: char)
    requires delim !in line
    ensures LineOf(line + [delim] + rest, delim) == line
  {
    var data := line + [delim] + rest;
    if line != [] {
      assert data[1..] == line[1..] + [delim] + rest;
      LineOfPrefix(line[1..], rest, delim);
    }
  }

  /** The complete lines of a stream, without their delimiters. */
  function Lines(stream: string, delim: char := '\n'): seq<string>
    decreases |stream|
  {
    if delim !in stream then []
    else
      var line := LineOf(stream, delim);
      [line] + Lines(stream[|line| + 1..], delim)
  }

  function Join(lines: seq<string>, delim: char := '\n'): string {
    if lines == [] then [] else lines[0] + [delim] + Join(lines[1..], delim)
  }

  /** Splitting undoes joining, so a stream of lines splits in one way only. */
  lemma {:induction false} LinesOfJoin(lines: seq<string>, delim: char)
    requires forall i :: 0 <= i < |lines| ==> delim !in lines[i]
    ensures Lines(Join(lines, delim), delim) == lines
  {
    if lines != [] {
      var stream := Join(lines, delim);
      var rest := Join(lines[1..], delim);
      LineOfPrefix(lines[0], rest, delim);
      assert stream[|lines[0]|] == delim;
      assert stream[|lines[0]| + 1..] == rest;
      LinesOfJoin(lines[1..], delim);
    }
  }

  // ---- decimal numbers ---------------------------------------------------------

  predicate IsDigit(c: char) { '0' <= c <= '9' }

  function Digit(d: nat): char
    requires d < 10
  {
    '0' + d as char
  }

  /** `std::to_string` on an unsigned number. */
  function Decimal(n: nat): (text: string)
    ensures text != [] && forall i :: 0 <= i < |text| ==> IsDigit(text[i])
    ensures |text| > 1 ==> text[0] != '0'
  {
    if n < 10 then [Digit(n)] else Decimal(n / 10) + [Digit(n % 10)]
  }

  function DigitValue(c: char): nat
    requires IsDigit(c)
  {
    (c - '0') as nat
  }

  function Value(text: string): nat
    requires forall i :: 0 <= i < |text| ==> IsDigit(text[i])
  {
    if text == [] then 0
    else 10 * Value(text[..|text| - 1]) + DigitValue(text[|text| - 1])
  }

  lemma {:induction false} ValueOfDecimal(n: nat)
    ensures Value(Decimal(n)) == n
  {
    if n >= 10 {
      ValueOfDecimal(n / 10);
      assert Decimal(n)[..|Decimal(n)| - 1] == Decimal(n / 10);
    }
  }

  /** Among digit strings without leading zeros, `Decimal` is onto. */
  lemma {:induction false} DecimalOfValue(text: string)
    requires text != [] && forall i :: 0 <= i < |text| ==> IsDigit(text[i])
    requires |text| > 1 ==> text[0] != '0'
    ensures Decimal(Value(text)) == text
  {
    var front := text[..|text| - 1];
    var d := DigitValue(text[|text| - 1]);
    if front == [] {
      assert Value(text) == d;
      assert text == [Digit(d)];
    } else {
      DecimalOfValue(front);
      ValuePositive(front);
      assert Value(text) / 10 == Value(front) && Value(text) % 10 == d;
      assert text == front + [Digit(d)];
    }
  }

  lemma {:induction false} ValuePositive(text: string)
    requires text != [] && forall i :: 0 <= i < |text| ==> IsDigit(text[i])
    requires text[0] != '0'
    ensures Value(text) > 0
  {
    if |text| > 1 {
      ValuePositive(text[..|text| - 1]);
    }
  }

  // ---- requests ------------------------------------------------------------------

  function RequestLine(keyword: string, duration: nat): string {
    keyword + " " + Decimal(duration)
  }

  function Request(keyword: string, duration: nat): string {
    RequestLine(keyword, duration) + "\n"
  }

  function ParseRequest(keyword: string, request: string): Option<nat> {
    var n := |keyword| + 1;
    if && |request| > n + 1
       && request[..n] == keyword + " "
       && request[|request| - 1] == '\n'
       && (forall i :: n <= i < |request| - 1 ==> IsDigit(request[i]))
    then
      var digits := request[n..|request| - 1];
      Some(Value(digits))
    else None
  }

  /** The newline of a request is its last character and its only one. */
  lemma RequestHasOneNewline(keyword: string, duration: nat)
    requires '\n' !in keyword
    ensures var r := Request(keyword, duration);
            forall i :: 0 <= i < |r| ==> (r[i] == '\n' <==> i == |r| - 1)
    ensures LineOf(Request(keyword, duration)) == RequestLine(keyword, duration)
  {
    var line := RequestLine(keyword, duration);
    assert '\n' !in line;
    LineOfPrefix(line, "", '\n');
    assert line + ['\n'] + "" == Request(keyword, duration);
  }

  lemma PrintedParses(keyword: string, duration: nat)
    ensures var request := Request(keyword, duration);
      && ParseRequest(keyword, request) == Some(duration)
      && (request[|keyword| + 1] == '0' ==> |request| == |keyword| + 3)
  {
    var request, n := Request(keyword, duration), |keyword| + 1;
    assert request[n..|request| - 1] == Decimal(duration);
    assert request[n] == Decimal(duration)[0];
    assert request[..n] == keyword + " ";
    ValueOfDecimal(duration);
  }

  /** Parsing inverts printing, and only canonical numerals are printed. */
  lemma ParseInvertsRequest(keyword: string, request: string, duration: nat)
    ensures request == Request(keyword, duration)
            <==> ParseRequest(keyword, request) == Some(duration)
                 && (request[|keyword| + 1] == '0' ==> |request| == |keyword| + 3)
  {
    var n := |keyword| + 1;
    PrintedParses(keyword, duration);
    if ParseRequest(keyword, request) == Some(duration) && (request[n] == '0' ==> |request| == n + 2) {
      var digits := request[n..|request| - 1];
      DecimalOfValue(digits);
      assert request == request[..n] + digits + [request[|request| - 1]];
    }
  }

  function Requests(keyword: string, durations: seq<nat>): string {
    if durations == [] then [] else Request(keyword, durations[0]) + Requests(keyword, durations[1..])
  }

  function RequestLines(keyword: string, durations: seq<nat>): seq<string> {
    seq(|durations|, i requires 0 <= i < |durations| => RequestLine(keyword, durations[i]))
  }

  lemma {:induction false} RequestsAreJoined(keyword: string, durations: seq<nat>)
    ensures Requests(keyword, durations) == Join(RequestLines(keyword, durations), '\n')
  {
    if durations != [] {
      RequestsAreJoined(keyword, durations[1..]);
      assert RequestLines(keyword, durations)[1..] == RequestLines(keyword, durations[1..]);
    }
  }

  /** Any concatenation of requests splits back into exactly those requests. */
  lemma RequestsSplit(keyword: string, durations: seq<nat>)
    requires '\n' !in keyword
    ensures Lines(Requests(keyword, durations)) == RequestLines(keyword, durations)
  {
    RequestsAreJoined(keyword, durations);
    LinesOfJoin(RequestLines(keyword, durations), '\n');
  }

  lemma RequestsAreUnambiguous(keyword: string, durations: seq<nat>, others: seq<nat>)
    requires '\n' !in keyword
    requires Requests(keyword, durations) == Requests(keyword, others)
    ensures durations == others
  {
    RequestsSplit(keyword, durations);
    RequestsSplit(keyword, others);
    var mine, theirs := RequestLines(keyword, durations), RequestLines(keyword, others);
    assert |durations| == |mine| == |theirs| == |others|;
    forall i | 0 <= i < |durations| ensures durations[i] == others[i] {
      assert mine[i] == theirs[i];
      var n := |keyword| + 1;
      assert mine[i][n..] == Decimal(durations[i]) && theirs[i][n..] == Decimal(others[i]);
      ValueOfDecimal(durations[i]);
      ValueOfDecimal(others[i]);
    }
  }
}
