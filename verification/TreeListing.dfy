/** From the bytes of `git ls-tree -r -l -z` to the entries of a snapshot: each NUL-terminated record is decoded and
    parsed, and the scan runs over the objects that gives. */
module TreeListing {
  import opened Model
  import opened TreeReading
  import opened SnapshotPipeline

  /** What Git and Python's text functions do: UTF-8 decoding, white space, `int`, and `git cat-file` of a blob. */
  datatype Tools = Tools(
    decode: Bytes -> string, space: char -> bool, number: string -> Option<int>, blob: string -> Option<Bytes>)

  // ---- one record ------------------------------------------------------------------------

  /** The words of a text: its maximal runs without white space. */
  function Words(space: char -> bool, s: string): (words: seq<string>)
    ensures |s| > 0 && !space(s[0]) ==> |words| > 0
  {
    if |s| == 0 then []
    else
      var rest := Words(space, s[1..]);
      if space(s[0]) then rest
      else if |s| > 1 && !space(s[1]) then [[s[0]] + rest[0]] + rest[1..]
      else [[s[0]]] + rest
  }

  function TabAt(s: string): (i: nat)
    ensures i <= |s| && '\t' !in s[..i] && (i < |s| ==> s[i] == '\t')
  {
    if |s| == 0 || s[0] == '\t' then 0
    else
      var i := TabAt(s[1..]);
      assert s[..i + 1] == [s[0]] + s[1..][..i];
      i + 1
  }

  /** `_parse_ls_tree_size` of the fourth word, `-` if there is none. */
  function SizeOf(tools: Tools, words: seq<string>): int {
    var raw := if |words| > 3 then words[3] else "-";
    if raw == "-" then 0 else match tools.number(raw) case Some(n) => n case None => 0
  }

  function Parse(tools: Tools, text: string): Record {
    var i := TabAt(text);
    var words := Words(tools.space, text[..i]);
    if i == |text| || |words| < 3 then Malformed
    else Listed(words[1] == "blob", text[i + 1..], SizeOf(tools, words), tools.blob(words[2]))
  }

  /** The objects a list of records names. */
  function Listing(tools: Tools, records: seq<Bytes>): seq<Record> {
    if |records| == 0 then []
    else
      var text := tools.decode(records[|records| - 1]);
      Listing(tools, records[..|records| - 1]) + if text == "" then [] else [Parse(tools, text)]
  }

  // ---- the whole read --------------------------------------------------------------------

  /** From chunks to entries: fails iff the stream ends inside a record, one of the caps is exceeded, a record cannot
      be parsed or a blob that is opened cannot be read; otherwise exactly the blobs the rules let through. */
  method ReadSnapshot(tools: Tools, lib: Library, rules: Rules, chunks: seq<Bytes>)
    returns (entries: Option<seq<Entry>>)
    ensures var tree := Listing(tools, Records(Stream(chunks)));
      && (entries.None? <==>
          Tail(Stream(chunks)) != [] || ExceedsCap(lib, rules, tree) || Unreadable(lib, rules, tree))
      && (entries.Some? ==> entries.value == Kept(lib, rules, tree))
    ensures entries.Some? ==> forall e :: e in entries.value ==>
      !UnderExcluded(e.path) && |e.content| <= rules.maxFileSize && |e.content| <= 5_242_880
  {
    hide UnderExcluded, Parse, Kept, ExceedsCap, Unreadable;
    var records, terminated := ReadRecords(chunks);
    var tree: seq<Record> := [];
    for i := 0 to |records|
      invariant tree == Listing(tools, records[..i])
    {
      assert records[..i + 1][..i] == records[..i];
      var text := tools.decode(records[i]);
      if text == "" { continue; }
      tree := tree + [Parse(tools, text)];
    }
    assert records[..|records|] == records;
    entries := ReadEntries(lib, rules, tree);
    if !terminated { entries := None; }
  }

  // ---- what Git writes is what the scan sees -----------------------------------------------

  /** One line of the listing: mode, kind and name of the object, its size padded to the right, and its path. */
  datatype Object = Object(mode: string, kind: string, sha: string, padding: nat, size: string, path: string)

  function Blanks(n: nat): string { if n == 0 then "" else " " + Blanks(n - 1) }

  function Metadata(o: Object): string {
    o.mode + (" " + (o.kind + (" " + (o.sha + (Blanks(o.padding + 1) + o.size)))))
  }

  function Line(o: Object): string { Metadata(o) + "\t" + o.path }

  predicate Word(tools: Tools, w: string) { |w| > 0 && forall i :: 0 <= i < |w| ==> !tools.space(w[i]) }

  predicate Written(tools: Tools, o: Object) {
    && Word(tools, o.mode) && Word(tools, o.kind) && Word(tools, o.sha) && Word(tools, o.size)
    && tools.space(' ') && tools.space('\t')
  }

  function ValueOr(o: Option<int>, default: int): int { match o case Some(n) => n case None => default }

  /** What the object is, however its path is spelt: a path may hold tabs and blanks. */
  function Meaning(tools: Tools, o: Object): Record {
    Listed(o.kind == "blob", o.path, if o.size != "-" then ValueOr(tools.number(o.size), 0) else 0, tools.blob(o.sha))
  }

  lemma {:induction false} WordsNext(tools: Tools, w: string, rest: string)
    requires Word(tools, w) && (rest == "" || tools.space(rest[0]))
    ensures Words(tools.space, w + rest) == [w] + Words(tools.space, rest)
  {
    var s := w + rest;
    assert s[1..] == w[1..] + rest;
    if |w| == 1 {
      assert s[1..] == rest && [w[0]] == w;
    } else {
      WordsNext(tools, w[1..], rest);
      assert [w[0]] + w[1..] == w;
      assert s[1] == w[1];
    }
  }

  lemma {:induction false} WordsAfterBlanks(tools: Tools, n: nat, rest: string)
    requires tools.space(' ')
    ensures Words(tools.space, Blanks(n) + rest) == Words(tools.space, rest)
    ensures n > 0 ==> |Blanks(n)| > 0 && Blanks(n)[0] == ' '
  {
    if n == 0 {
      assert Blanks(n) + rest == rest;
    } else {
      WordsAfterBlanks(tools, n - 1, rest);
      assert (Blanks(n) + rest)[1..] == Blanks(n - 1) + rest;
    }
  }

  /** Appending a word and what separates it from the rest. */
  lemma WordAndBlanks(tools: Tools, w: string, n: nat, rest: string)
    requires Word(tools, w) && tools.space(' ') && n > 0
    ensures Words(tools.space, w + (Blanks(n) + rest)) == [w] + Words(tools.space, rest)
  {
    WordsAfterBlanks(tools, n, rest);
    WordsNext(tools, w, Blanks(n) + rest);
  }

  lemma WordsOfMetadata(tools: Tools, o: Object)
    requires Written(tools, o)
    ensures Words(tools.space, Metadata(o)) == [o.mode, o.kind, o.sha, o.size]
  {
    hide Words, Word;
    assert Blanks(1) == " " + Blanks(0) == " ";
    var afterSha := Blanks(o.padding + 1) + o.size;
    var afterKind := o.sha + afterSha;
    WordAndBlanks(tools, o.mode, 1, o.kind + (" " + afterKind));
    WordAndBlanks(tools, o.kind, 1, afterKind);
    WordAndBlanks(tools, o.sha, o.padding + 1, o.size);
    LastWord(tools, o.size);
    assert Metadata(o) == o.mode + (" " + (o.kind + (" " + afterKind)));
  }

  lemma LastWord(tools: Tools, w: string)
    requires Word(tools, w)
    ensures Words(tools.space, w) == [w]
  {
    WordsNext(tools, w, "");
    assert w + "" == w;
  }

  lemma {:induction false} NoTabInBlanks(n: nat)
    ensures '\t' !in Blanks(n)
  {
    if n > 0 { NoTabInBlanks(n - 1); }
  }

  lemma {:induction false} TabAfter(s: string, rest: string)
    requires '\t' !in s
    ensures TabAt(s + "\t" + rest) == |s|
  {
    var t := s + "\t" + rest;
    if |s| > 0 {
      TabAfter(s[1..], rest);
      assert t[1..] == s[1..] + "\t" + rest;
      assert t[0] == s[0];
    }
  }

  lemma NoTabInMetadata(tools: Tools, o: Object)
    requires Written(tools, o)
    ensures '\t' !in Metadata(o)
  {
    NoTabInBlanks(o.padding + 1);
  }

  /** Parsing a line gives back the object it was written for. */
  lemma ParseLine(tools: Tools, o: Object)
    requires Written(tools, o)
    ensures Parse(tools, Line(o)) == Meaning(tools, o)
  {
    hide Words, Metadata, Written;
    NoTabInMetadata(tools, o);
    TabAfter(Metadata(o), o.path);
    WordsOfMetadata(tools, o);
    assert Line(o)[..|Metadata(o)|] == Metadata(o);
    assert Line(o)[|Metadata(o)| + 1..] == o.path;
  }

  /** The bytes of one line. */
  predicate Encodes(tools: Tools, record: Bytes, o: Object) {
    Written(tools, o) && |record| > 0 && NUL !in record && tools.decode(record) == Line(o)
  }

  function Terminated(records: seq<Bytes>): Bytes {
    if |records| == 0 then [] else records[0] + [NUL] + Terminated(records[1..])
  }

  lemma {:induction false} RecordsOfTerminated(records: seq<Bytes>)
    requires forall i :: 0 <= i < |records| ==> |records[i]| > 0 && NUL !in records[i]
    ensures Records(Terminated(records)) == records && Tail(Terminated(records)) == []
  {
    if |records| > 0 {
      RecordsOfTerminated(records[1..]);
      RecordsNext(records[0], Terminated(records[1..]));
    }
  }

  lemma {:induction false} ListingOfObjects(tools: Tools, records: seq<Bytes>, objects: seq<Object>)
    requires |records| == |objects| && forall i :: 0 <= i < |objects| ==> Encodes(tools, records[i], objects[i])
    ensures |Listing(tools, records)| == |objects|
    ensures forall i :: 0 <= i < |objects| ==> Listing(tools, records)[i] == Meaning(tools, objects[i])
  {
    if |objects| > 0 {
      hide Listing, Parse, Meaning, Encodes;
      var n := |objects| - 1;
      ListingOfObjects(tools, records[..n], objects[..n]);
      ListingLast(tools, records, objects[n]);
    }
  }

  lemma ListingLast(tools: Tools, records: seq<Bytes>, o: Object)
    requires |records| > 0 && Encodes(tools, records[|records| - 1], o)
    ensures Listing(tools, records) == Listing(tools, records[..|records| - 1]) + [Meaning(tools, o)]
  {
    hide Written, Parse, Meaning;
    ParseEncoded(tools, records[|records| - 1], o);
  }

  lemma ParseEncoded(tools: Tools, record: Bytes, o: Object)
    requires Encodes(tools, record, o)
    ensures tools.decode(record) != "" && Parse(tools, tools.decode(record)) == Meaning(tools, o)
  {
    hide Written, Parse, Meaning, Metadata;
    ParseLine(tools, o);
  }

  /** A tree that Git lists is the tree the scan sees: the same objects in the same order, whatever their paths hold,
      with nothing left over, however the listing is cut into chunks. */
  lemma ListedTree(tools: Tools, records: seq<Bytes>, objects: seq<Object>, chunks: seq<Bytes>)
    requires |records| == |objects| && forall i :: 0 <= i < |objects| ==> Encodes(tools, records[i], objects[i])
    requires Concat(chunks) == Terminated(records) && forall i :: 0 <= i < |chunks| ==> |chunks[i]| > 0
    ensures var tree := Listing(tools, Records(Stream(chunks)));
      && Tail(Stream(chunks)) == [] && |tree| == |objects|
      && forall i :: 0 <= i < |objects| ==> tree[i] == Meaning(tools, objects[i])
  {
    hide Listing, Meaning;
    StreamIsConcat(chunks);
    RecordsOfTerminated(records);
    ListingOfObjects(tools, records, objects);
  }
}
