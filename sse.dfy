/**
 * Single-frame Server-Sent Events parsing, as `_parse_sse_response` does it
 * (the same code in both clients): the reply body is stripped and split at
 * newlines, the first line that starts with `data: ` once stripped is taken,
 * and the text after the prefix is decoded as JSON. Later lines are never read.
 */
module Sse {
  import opened Text
  import opened Py

  const DataPrefix := "data: "

  /** The lines the parser scans. */
  function Lines(text: string): seq<string>
  {
    Split(Strip(text), '\n')
  }

  predicate IsDataLine(line: string)
  {
    StartsWith(Strip(line), DataPrefix)
  }

  /** The JSON text of a data line: the stripped line without its 6-character prefix. */
  function Payload(line: string): string
    requires IsDataLine(line)
  {
    Strip(line)[|DataPrefix|..]
  }

  /** Line `k` is the first data line. */
  predicate FirstDataAt(lines: seq<string>, k: int)
  {
    && 0 <= k < |lines|
    && IsDataLine(lines[k])
    && forall j :: 0 <= j < k ==> !IsDataLine(lines[j])
  }

  /** The index of the first data line at or after `from`, if there is one. */
  function FirstDataLine(lines: seq<string>, from: nat): (r: Option<nat>)
    requires from <= |lines|
    ensures r.Some? ==> from <= r.value < |lines| && IsDataLine(lines[r.value])
    ensures forall k :: from <= k < (if r.Some? then r.value else |lines|) ==> !IsDataLine(lines[k])
    decreases |lines| - from
  {
    if from == |lines| then None
    else if IsDataLine(lines[from]) then Some(from)
    else FirstDataLine(lines, from + 1)
  }

  /** Decoding the text of one data line: `json.loads`, with a decode failure raised as InvalidJson. */
  function DecodePayload(data: string, loads: string -> Decoded): (r: Result<Json>)
    ensures r.Ok? || r.error.InvalidJson?
    ensures forall j :: loads(data) == Parsed(j) ==> r == Ok(j)
    ensures forall m :: loads(data) == Malformed(m) ==> r == Err(InvalidJson(m))
  {
    match loads(data)
    case Parsed(j) => Ok(j)
    case Malformed(reason) => Err(InvalidJson(reason))
  }

  /** What the parser yields for a sequence of lines. */
  function Decode(lines: seq<string>, loads: string -> Decoded): Result<Json>
  {
    match FirstDataLine(lines, 0)
    case None => Err(NoData)
    case Some(k) => DecodePayload(Payload(lines[k]), loads)
  }

  /**
   * "No data" exactly when no line is a data line; otherwise the outcome is
   * the decoding of the first data line's payload.
   */
  lemma DecodeMeaning(lines: seq<string>, loads: string -> Decoded)
    ensures Decode(lines, loads) == Err(NoData) <==> forall k :: 0 <= k < |lines| ==> !IsDataLine(lines[k])
    ensures Decode(lines, loads) != Err(NoData) ==>
      exists k :: FirstDataAt(lines, k) && Decode(lines, loads) == DecodePayload(Payload(lines[k]), loads)
  {
    match FirstDataLine(lines, 0)
    case None =>
    case Some(k) =>
      assert FirstDataAt(lines, k);
  }

  /** What `_parse_sse_response(text)` returns or raises. */
  function ParseSse(text: string, loads: string -> Decoded): Result<Json>
  {
    Decode(Lines(text), loads)
  }

  /** `_parse_sse_response`: the loop over the lines with its early return. */
  method ParseSseResponse(text: string, rt: Runtime) returns (r: Result<Json>)
    ensures r == ParseSse(text, rt.loads)
  {
    var lines := Lines(text);
    var i := 0;
    while i < |lines|
      invariant 0 <= i <= |lines|
      invariant FirstDataLine(lines, 0) == FirstDataLine(lines, i)
    {
      var line := Strip(lines[i]);
      if StartsWith(line, DataPrefix) {
        assert FirstDataLine(lines, 0) == Some(i);
        var data := line[|DataPrefix|..];
        assert data == Payload(lines[i]);
        match rt.loads(data) {
          case Parsed(j) => return Ok(j);
          case Malformed(reason) => return Err(InvalidJson(reason));
        }
      }
      i := i + 1;
    }
    assert FirstDataLine(lines, 0).None?;
    return Err(NoData);
  }

  /** The parser's outcome is decided by the first data line alone. */
  lemma DecodeAtFirstDataLine(lines: seq<string>, k: int, loads: string -> Decoded)
    requires FirstDataAt(lines, k)
    ensures Decode(lines, loads) == DecodePayload(Payload(lines[k]), loads)
  {
    var r := FirstDataLine(lines, 0);
    if r.None? {
      assert false;
    } else if r.value < k {
      assert false;
    } else if r.value > k {
      assert false;
    }
    assert r == Some(k);
  }

  lemma {:induction false} FirstDataLineExtends(lines: seq<string>, more: seq<string>, from: nat)
    requires from <= |lines|
    requires FirstDataLine(lines, from).Some?
    ensures FirstDataLine(lines + more, from) == FirstDataLine(lines, from)
    decreases |lines| - from
  {
    var all := lines + more;
    assert from < |lines|;
    assert all[from] == lines[from];
    if IsDataLine(lines[from]) {
      assert FirstDataLine(all, from) == Some(from);
    } else {
      FirstDataLineExtends(lines, more, from + 1);
      assert FirstDataLine(all, from) == FirstDataLine(all, from + 1);
    }
  }

  /** Once a data line has been seen, whatever follows it is ignored, valid JSON or not. */
  lemma LaterLinesIgnored(lines: seq<string>, more: seq<string>, loads: string -> Decoded)
    requires exists k :: 0 <= k < |lines| && IsDataLine(lines[k])
    ensures Decode(lines + more, loads) == Decode(lines, loads)
  {
    FirstDataLineExtends(lines, more, 0);
    var k := FirstDataLine(lines, 0).value;
    assert (lines + more)[k] == lines[k];
  }
}
