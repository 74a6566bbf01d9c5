/** The reader of `git ls-tree -z` output: NUL-terminated records out of a stream that arrives in chunks. */
module TreeReading {
  type Byte = bv8
  type Bytes = seq<Byte>

  const NUL: Byte := 0

  // ---- what a stream says ----------------------------------------------------------------

  function Prepend(b: Byte, fields: seq<Bytes>): seq<Bytes>
    requires |fields| > 0
  {
    if b == NUL then [[]] + fields else [[b] + fields[0]] + fields[1..]
  }

  /** The stream cut at every NUL. What follows the last NUL is the last field. */
  function Fields(stream: Bytes): (fields: seq<Bytes>)
    ensures |fields| > 0
  {
    if |stream| == 0 then [[]] else Prepend(stream[0], Fields(stream[1..]))
  }

  function Tail(stream: Bytes): Bytes { var f := Fields(stream); f[|f| - 1] }

  function NonEmpty(fields: seq<Bytes>): seq<Bytes> {
    if |fields| == 0 then []
    else (if |fields[0]| > 0 then [fields[0]] else []) + NonEmpty(fields[1..])
  }

  /** The nonempty NUL-terminated records, in order. */
  function Records(stream: Bytes): seq<Bytes> { var f := Fields(stream); NonEmpty(f[..|f| - 1]) }

  function Join(fields: seq<Bytes>): Bytes
    requires |fields| > 0
  {
    if |fields| == 1 then fields[0] else fields[0] + [NUL] + Join(fields[1..])
  }

  /** Cutting loses nothing: the fields hold no NUL, and put together again they are the stream. */
  lemma {:induction false} FieldsRoundTrip(stream: Bytes)
    ensures Join(Fields(stream)) == stream
    ensures forall i :: 0 <= i < |Fields(stream)| ==> NUL !in Fields(stream)[i]
  {
    if |stream| > 0 {
      FieldsRoundTrip(stream[1..]);
      var rest := Fields(stream[1..]);
      var f := Fields(stream);
      if stream[0] == NUL {
        assert f[1..] == rest;
      } else {
        assert f[1..] == rest[1..];
        assert stream == [stream[0]] + stream[1..];
      }
    }
  }

  // ---- putting streams together ----------------------------------------------------------

  lemma {:induction false} FieldsOfRecord(record: Bytes, rest: Bytes)
    requires NUL !in record
    ensures Fields(record + [NUL] + rest) == [record] + Fields(rest)
  {
    var stream := record + [NUL] + rest;
    if |record| == 0 {
      assert stream[1..] == rest;
    } else {
      FieldsOfRecord(record[1..], rest);
      assert stream[1..] == record[1..] + [NUL] + rest;
      assert [record[0]] + record[1..] == record;
    }
  }

  lemma {:induction false} FieldsOfTail(tail: Bytes)
    requires NUL !in tail
    ensures Fields(tail) == [tail]
  {
    if |tail| > 0 {
      FieldsOfTail(tail[1..]);
      assert [tail[0]] + tail[1..] == tail;
    }
  }

  lemma FieldsCons(b: Byte, stream: Bytes)
    ensures Fields([b] + stream) == Prepend(b, Fields(stream))
  {
    assert ([b] + stream)[1..] == stream;
  }

  /** The fields of a stream whose last field goes on with `more`. */
  function Extended(fields: seq<Bytes>, more: Bytes): seq<Bytes>
    requires |fields| > 0
  {
    fields[..|fields| - 1] + Fields(fields[|fields| - 1] + more)
  }

  lemma PrependNul(fields: seq<Bytes>, more: Bytes)
    requires |fields| > 0
    ensures Prepend(NUL, Extended(fields, more)) == Extended(Prepend(NUL, fields), more)
  {
    var p := [[]] + fields;
    assert p[..|p| - 1] == [[]] + fields[..|fields| - 1];
    assert p[|p| - 1] == fields[|fields| - 1];
  }

  lemma PrependLast(b: Byte, field: Bytes, more: Bytes)
    requires b != NUL
    ensures Prepend(b, Extended([field], more)) == Extended(Prepend(b, [field]), more)
  {
    assert Extended([field], more) == Fields(field + more);
    assert Prepend(b, [field]) == [[b] + field];
    assert Extended([[b] + field], more) == Fields([b] + field + more);
    assert [b] + field + more == [b] + (field + more);
    FieldsCons(b, field + more);
  }

  lemma PrependFirst(b: Byte, fields: seq<Bytes>, more: Bytes)
    requires b != NUL && |fields| > 1
    ensures Prepend(b, Extended(fields, more)) == Extended(Prepend(b, fields), more)
  {
    var n := |fields|;
    var last := Fields(fields[n - 1] + more);
    var p := [[b] + fields[0]] + fields[1..];
    assert Extended(fields, more)[0] == fields[0];
    assert Extended(fields, more)[1..] == fields[1..n - 1] + last;
    assert p[..n - 1] == [[b] + fields[0]] + fields[1..n - 1];
    assert p[n - 1] == fields[n - 1];
  }

  /** The other round trip: a nonempty list of NUL-free fields is what cutting their join gives back. */
  lemma {:induction false} FieldsOfJoin(fields: seq<Bytes>)
    requires |fields| > 0 && forall i :: 0 <= i < |fields| ==> NUL !in fields[i]
    ensures Fields(Join(fields)) == fields
  {
    if |fields| == 1 {
      FieldsOfTail(fields[0]);
    } else {
      FieldsOfJoin(fields[1..]);
      FieldsOfRecord(fields[0], Join(fields[1..]));
    }
  }

  /** More bytes only extend the last field. */
  lemma {:induction false} FieldsAppend(stream: Bytes, more: Bytes)
    ensures Fields(stream + more) == Extended(Fields(stream), more)
  {
    hide Extended, Fields, Prepend;
    if |stream| == 0 {
      NoFields(more);
      assert stream == [] && stream + more == more;
    } else {
      var b, rest := stream[0], stream[1..];
      FieldsAppend(rest, more);
      assert stream == [b] + rest && stream + more == [b] + (rest + more);
      FieldsCons(b, rest);
      FieldsCons(b, rest + more);
      PrependExtended(b, Fields(rest), more);
    }
  }

  lemma NoFields(more: Bytes)
    ensures Fields(more) == Extended(Fields([]), more)
  {
    assert [] + more == more;
  }

  lemma PrependExtended(b: Byte, fields: seq<Bytes>, more: Bytes)
    requires |fields| > 0
    ensures Prepend(b, Extended(fields, more)) == Extended(Prepend(b, fields), more)
  {
    hide Extended, Fields, Prepend;
    if b == NUL {
      PrependNul(fields, more);
    } else if |fields| == 1 {
      assert fields == [fields[0]];
      PrependLast(b, fields[0], more);
    } else {
      PrependFirst(b, fields, more);
    }
  }

  lemma {:induction false} NonEmptyConcat(a: seq<Bytes>, b: seq<Bytes>)
    ensures NonEmpty(a + b) == NonEmpty(a) + NonEmpty(b)
  {
    if |a| == 0 {
      assert a + b == b;
    } else {
      NonEmptyConcat(a[1..], b);
      assert (a + b)[1..] == a[1..] + b;
    }
  }

  lemma RecordsAppend(stream: Bytes, more: Bytes)
    ensures Records(stream + more) == Records(stream) + Records(Tail(stream) + more)
    ensures Tail(stream + more) == Tail(Tail(stream) + more)
  {
    FieldsAppend(stream, more);
    var f, g := Fields(stream), Fields(Tail(stream) + more);
    assert (f[..|f| - 1] + g)[..|f| - 1 + |g| - 1] == f[..|f| - 1] + g[..|g| - 1];
    NonEmptyConcat(f[..|f| - 1], g[..|g| - 1]);
  }

  lemma RecordsNext(record: Bytes, rest: Bytes)
    requires NUL !in record
    ensures Records(record + [NUL] + rest) == (if |record| > 0 then [record] else []) + Records(rest)
    ensures Tail(record + [NUL] + rest) == Tail(rest)
  {
    FieldsOfRecord(record, rest);
    var f := Fields(rest);
    assert ([record] + f)[..|f|] == [record] + f[..|f| - 1];
  }

  // ---- the reader ------------------------------------------------------------------------

  /** What the reads up to the first empty one delivered. */
  function Stream(chunks: seq<Bytes>): Bytes {
    if |chunks| == 0 || |chunks[0]| == 0 then [] else chunks[0] + Stream(chunks[1..])
  }

  method FirstNul(buffer: Bytes) returns (i: nat)
    ensures i <= |buffer| && NUL !in buffer[..i] && (i < |buffer| ==> buffer[i] == NUL)
  {
    i := 0;
    while i < |buffer| && buffer[i] != NUL
      invariant i <= |buffer| && NUL !in buffer[..i]
    {
      i := i + 1;
    }
  }

  /** However the stream is chunked, the reader yields exactly its nonempty NUL-terminated records in order, and
      fails iff an unterminated nonempty tail is left. */
  method ReadRecords(chunks: seq<Bytes>) returns (records: seq<Bytes>, ok: bool)
    ensures records == Records(Stream(chunks)) && ok == (Tail(Stream(chunks)) == [])
  {
    records := [];
    var buffer: Bytes := [];
    var i := 0;
    ghost var read: Bytes := [];
    while i < |chunks| && |chunks[i]| > 0
      invariant i <= |chunks| && Stream(chunks) == read + Stream(chunks[i..])
      invariant records == Records(read) && buffer == Tail(read) && NUL !in buffer
      decreases |chunks| - i
    {
      assert chunks[i..][1..] == chunks[i + 1..];
      RecordsAppend(read, chunks[i]);
      buffer := buffer + chunks[i];
      read := read + chunks[i];
      var nul := FirstNul(buffer);
      while nul < |buffer|
        invariant 0 <= nul <= |buffer| && NUL !in buffer[..nul] && (nul < |buffer| ==> buffer[nul] == NUL)
        invariant records + Records(buffer) == Records(read) && Tail(buffer) == Tail(read)
        decreases |buffer|
      {
        var record, rest := buffer[..nul], buffer[nul + 1..];
        assert buffer == record + [NUL] + rest;
        RecordsNext(record, rest);
        if |record| > 0 { records := records + [record]; }
        buffer := rest;
        nul := FirstNul(buffer);
      }
      assert buffer[..nul] == buffer;
      FieldsOfTail(buffer);
      i := i + 1;
    }
    assert read + [] == read;
    ok := |buffer| == 0;
  }

  /** Two chunkings of one stream read the same. */
  lemma ChunkingIrrelevant(a: seq<Bytes>, b: seq<Bytes>, stream: Bytes)
    requires Concat(a) == stream && Concat(b) == stream
    requires (forall i :: 0 <= i < |a| ==> |a[i]| > 0) && forall i :: 0 <= i < |b| ==> |b[i]| > 0
    ensures Stream(a) == stream && Stream(b) == stream
  {
    StreamIsConcat(a);
    StreamIsConcat(b);
  }

  function Concat(chunks: seq<Bytes>): Bytes { if |chunks| == 0 then [] else chunks[0] + Concat(chunks[1..]) }

  lemma {:induction false} StreamIsConcat(chunks: seq<Bytes>)
    requires forall i :: 0 <= i < |chunks| ==> |chunks[i]| > 0
    ensures Stream(chunks) == Concat(chunks)
  {
    if |chunks| > 0 { StreamIsConcat(chunks[1..]); }
  }
}
