/** What the two capture channels hand to the session: the speech engine's
    result list, joined into one transcript, and the recorder's data
    chunks, assembled into one audio blob and read back as a data URL
    whose base64 payload is kept. */
module Capture {

  /** One recognition hypothesis for a stretch of speech. */
  datatype Alternative = Alternative(transcript: string)

  /** One recognition result: its alternatives, best first. */
  type SpeechResult = seq<Alternative>

  /** The engine always reports at least one alternative per result. */
  predicate WellFormed(results: seq<SpeechResult>)
  {
    forall i :: 0 <= i < |results| ==> |results[i]| > 0
  }

  /** The best alternatives of all results, joined with no separator: no
      results give no text, and one result gives its best alternative. */
  function Transcript(results: seq<SpeechResult>): (text: string)
    requires WellFormed(results)
    ensures results == [] ==> text == []
    ensures |results| == 1 ==> text == results[0][0].transcript
  {
    if results == [] then [] else results[0][0].transcript + Transcript(results[1..])
  }

  /** Joining distributes over consecutive runs of results. */
  lemma {:induction false} TranscriptAppend(a: seq<SpeechResult>, b: seq<SpeechResult>)
    requires WellFormed(a) && WellFormed(b)
    ensures WellFormed(a + b)
    ensures Transcript(a + b) == Transcript(a) + Transcript(b)
  {
    if a == [] {
      assert a + b == b;
    } else {
      assert (a + b)[1..] == a[1..] + b;
      TranscriptAppend(a[1..], b);
    }
  }

  /** Each result contributes its best alternative, in order, at the place
      its position in the list calls for. */
  lemma {:induction false} TranscriptAt(results: seq<SpeechResult>, i: nat)
    requires WellFormed(results) && i < |results|
    ensures Transcript(results) ==
            Transcript(results[..i]) + results[i][0].transcript + Transcript(results[i + 1..])
  {
    var before, from := results[..i], results[i..];
    assert WellFormed(before) && WellFormed(from);
    assert results == before + from;
    TranscriptAppend(before, from);
    assert from[1..] == results[i + 1..];
  }

  /** The bytes of one recorded data chunk. */
  type Chunk = seq<bv8>

  /** The blob built from a list of chunks holds their bytes in order: no
      chunks make an empty blob, and the blob starts with the first chunk. */
  function Concat(chunks: seq<Chunk>): (blob: seq<bv8>)
    ensures chunks == [] ==> blob == []
    ensures |chunks| > 0 ==> |chunks[0]| <= |blob| && blob[..|chunks[0]|] == chunks[0]
  {
    if chunks == [] then [] else chunks[0] + Concat(chunks[1..])
  }

  /** Appending a chunk appends its bytes to the blob. */
  lemma {:induction false} ConcatSnoc(chunks: seq<Chunk>, c: Chunk)
    ensures Concat(chunks + [c]) == Concat(chunks) + c
  {
    if chunks == [] {
      assert chunks + [c] == [c];
      assert [c][1..] == [];
    } else {
      assert (chunks + [c])[1..] == chunks[1..] + [c];
      ConcatSnoc(chunks[1..], c);
    }
  }

  /** A string split at every occurrence of `sep`, as the string split
      method does: there is always at least one part, possibly empty. */
  function Split(s: string, sep: char): (parts: seq<string>)
    ensures |parts| >= 1
    ensures forall i :: 0 <= i < |parts| ==> sep !in parts[i]
    ensures |parts| == 1 <==> sep !in s
  {
    if s == [] then [[]]
    else
      var rest := Split(s[1..], sep);
      if s[0] == sep then [[]] + rest else [[s[0]] + rest[0]] + rest[1..]
  }

  /** The parts joined back with `sep` between them. */
  function Join(parts: seq<string>, sep: char): string
    requires |parts| >= 1
  {
    if |parts| == 1 then parts[0] else parts[0] + [sep] + Join(parts[1..], sep)
  }

  /** Splitting loses nothing: joining the parts gives the string back. */
  lemma {:induction false} JoinSplit(s: string, sep: char)
    ensures Join(Split(s, sep), sep) == s
  {
    if s != [] {
      JoinSplit(s[1..], sep);
      var rest := Split(s[1..], sep);
      if s[0] == sep {
        assert ([[]] + rest)[1..] == rest;
      } else if |rest| == 1 {
        assert s == [s[0]] + rest[0];
      } else {
        var parts := [[s[0]] + rest[0]] + rest[1..];
        assert parts[1..] == rest[1..];
        assert Join(rest, sep) == rest[0] + [sep] + Join(rest[1..], sep);
        assert s == [s[0]] + s[1..];
      }
    }
  }

  /** A string without the separator is a single part. */
  lemma {:induction false} SplitNoSeparator(s: string, sep: char)
    requires sep !in s
    ensures Split(s, sep) == [s]
  {
    if s != [] {
      SplitNoSeparator(s[1..], sep);
      assert s == [s[0]] + s[1..];
    }
  }

  /** A separator-free head is cut off as the first part. */
  lemma {:induction false} SplitAfterHead(head: string, sep: char, tail: string)
    requires sep !in head
    ensures Split(head + [sep] + tail, sep) == [head] + Split(tail, sep)
  {
    var s := head + [sep] + tail;
    if head == [] {
      assert s[1..] == tail;
    } else {
      assert s[1..] == head[1..] + [sep] + tail;
      SplitAfterHead(head[1..], sep, tail);
      assert [head[0]] + head[1..] == head;
    }
  }

  /** The base64 payload of a data URL: the second comma-separated part, or
      the empty string when there is no comma (the missing part is falsy).
      The payload never holds a comma. */
  function DataUrlPayload(url: string): (payload: string)
    ensures ',' !in payload
    ensures ',' !in url ==> payload == []
  {
    var parts := Split(url, ',');
    if |parts| >= 2 then parts[1] else []
  }

  /** Base64 text has no comma, so the payload after the header's comma is
      recovered whole. */
  lemma DataUrlPayloadOf(header: string, payload: string)
    requires ',' !in header && ',' !in payload
    ensures DataUrlPayload(header + "," + payload) == payload
  {
    SplitAfterHead(header, ',', payload);
    SplitNoSeparator(payload, ',');
  }
}
