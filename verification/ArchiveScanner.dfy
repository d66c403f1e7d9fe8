/** The archive scanner: reads each matching file of a tarball block by block,
  * guesses its format from the first block and decodes the whole. Decoders,
  * format detection and globs are parameters.
  */
module ArchiveScanner {
  import opened Wrappers

  type Bytes = seq<bv8>

  datatype Status = Fine | Eof | Broken

  /** What one read returns. */
  datatype Read = Read(data: Bytes, status: Status)

  datatype Mime = Mime(isJson: bool, isText: bool)

  datatype ScanError = ReadError | JsonSyntaxError | JsonOtherError

  /** What a decoder leaves behind: a document, and an error if it failed. */
  datatype Decoding<V> = Decoding(doc: V, error: Option<ScanError>)

  datatype Codecs<V> = Codecs(
    detect: Bytes -> Mime, json: Bytes -> Decoding<V>, yaml: Bytes -> Decoding<V>, empty: V, globs: seq<string -> bool>)

  function Detect<V>(codecs: Codecs<V>, block: Bytes): Mime {
    codecs.detect(block)
  }

  function DecodeJson<V>(codecs: Codecs<V>, content: Bytes): Decoding<V> {
    codecs.json(content)
  }

  function DecodeYaml<V>(codecs: Codecs<V>, content: Bytes): Decoding<V> {
    codecs.yaml(content)
  }

  datatype Format = NoFormat | Json | Yaml

  datatype Entry<V> = Entry(doc: V, format: Format, unrecognized: bool, error: Option<ScanError>)

  // --- reading a file

  function Min(a: nat, b: nat): nat {
    if a < b then a else b
  }

  /** One read into a buffer of `size` bytes; what does not fit is left for the next one. */
  function Pop(script: seq<Read>, size: nat): (Read, seq<Read>) {
    if script == [] then (Read([], Eof), [])
    else if |script[0].data| <= size then (script[0], script[1..])
    else (Read(script[0].data[..size], Fine), [script[0].(data := script[0].data[size..])] + script[1..])
  }

  /** A bound on the reads left. */
  function Length(script: seq<Read>): nat {
    if script == [] then 0 else |script[0].data| + 1 + Length(script[1..])
  }

  lemma PopShrinks(script: seq<Read>, size: nat)
    requires Pop(script, size).0.data != []
    ensures Length(Pop(script, size).1) < Length(script)
  {
    if |script[0].data| > size {
      assert Pop(script, size).1[1..] == script[1..];
    }
  }

  /** A reader that serves a fixed script, cut to the size of each buffer. */
  class Reader {
    var script: seq<Read>

    constructor (script: seq<Read>)
      ensures this.script == script
    {
      this.script := script;
    }

    method Next(size: nat) returns (r: Read)
      modifies this
      ensures (r, script) == Pop(old(script), size)
    {
      if script == [] {
        return Read([], Eof);
      }
      if |script[0].data| <= size {
        r := script[0];
        script := script[1..];
      } else {
        r := Read(script[0].data[..size], Fine);
        script := [script[0].(data := script[0].data[size..])] + script[1..];
      }
    }
  }

  /** Everything read up to the first empty read or error, and the first block. */
  datatype Gathered = Gathered(content: Bytes, first: Bytes, broken: bool)

  function Gather(script: seq<Read>, size: nat): Gathered
    decreases Length(script)
  {
    var (r, rest) := Pop(script, size);
    if r.status.Broken? then Gathered([], [], true)
    else if r.data == [] then Gathered([], [], false)
    else
      PopShrinks(script, size);
      var g := Gather(rest, size);
      Gathered(r.data + g.content, r.data, g.broken)
  }

  lemma GatherStep(script: seq<Read>, size: nat)
    ensures var (r, rest) := Pop(script, size);
      Gather(script, size) ==
        if r.status.Broken? || r.data == [] then Gathered([], [], r.status.Broken?)
        else Gathered(r.data + Gather(rest, size).content, r.data, Gather(rest, size).broken)
  { }

  /** The entry of a file from its first block and its content. */
  function EntryFor<V>(codecs: Codecs<V>, g: Gathered): Entry<V> {
    var blank := Entry(codecs.empty, NoFormat, false, None);
    if g.first == [] then blank.(error := if g.broken then Some(ReadError) else None)
    else
      var mime := Detect(codecs, g.first);
      if !mime.isJson && !mime.isText then blank.(unrecognized := true)
      else if g.broken then blank.(error := Some(ReadError))
      else if mime.isJson then
        var d := DecodeJson(codecs, g.content);
        Entry(d.doc, Json, false, d.error)
      else
        var d := DecodeYaml(codecs, g.content);
        if d.error.Some? then Entry(d.doc, NoFormat, true, None) else Entry(d.doc, Yaml, false, None)
  }

  method ScanEntry<V>(codecs: Codecs<V>, reader: Reader, size: nat) returns (entry: Entry<V>)
    modifies reader
    ensures entry == EntryFor(codecs, Gather(old(reader.script), size))
  {
    hide Gather, Pop, Length, Detect, DecodeJson, DecodeYaml;
    var mime := Mime(false, false);
    var memBuf: Bytes := [];
    var mimeComputed := false;
    entry := Entry(codecs.empty, NoFormat, false, None);
    ghost var script0, first := reader.script, [];
    while true
      invariant entry == Entry(codecs.empty, NoFormat, false, None)
      invariant mimeComputed <==> first != []
      invariant mime == if first == [] then Mime(false, false) else Detect(codecs, first)
      invariant first != [] ==> mime.isJson || mime.isText
      invariant first == [] ==> memBuf == [] && reader.script == script0
      invariant Gather(script0, size) == Onwards(memBuf, first, Gather(reader.script, size))
      decreases Length(reader.script)
    {
      ghost var script := reader.script;
      GatherStep(script, size);
      var r := reader.Next(size);
      if r.status.Broken? {
        entry := entry.(error := Some(ReadError));
        return;
      }
      if r.data == [] {
        assert memBuf + [] == memBuf;
        break;
      }
      PopShrinks(script, size);
      memBuf := memBuf + r.data;
      if !mimeComputed {
        mimeComputed := true;
        first := r.data;
        mime := Detect(codecs, r.data);
        if !mime.isJson && !mime.isText {
          entry := entry.(unrecognized := true);
          return;
        }
      }
    }
    if mime.isJson {
      var d := DecodeJson(codecs, memBuf);
      entry := Entry(d.doc, Json, false, d.error);
    } else if mime.isText {
      var d := DecodeYaml(codecs, memBuf);
      if d.error.Some? {
        entry := entry.(doc := d.doc, unrecognized := true);
        return;
      }
      entry := Entry(d.doc, Yaml, false, None);
    }
  }

  /** What was read so far, followed by what is still to come. */
  function Onwards(content: Bytes, first: Bytes, g: Gathered): Gathered {
    Gathered(content + g.content, if first == [] then g.first else first, g.broken)
  }

  // --- chunking does not matter

  /** No read fails and none is empty. */
  predicate Healthy(script: seq<Read>) {
    forall i :: 0 <= i < |script| ==> script[i].data != [] && !script[i].status.Broken?
  }

  function Content(script: seq<Read>): Bytes {
    if script == [] then [] else script[0].data + Content(script[1..])
  }

  function FirstBlock(script: seq<Read>, size: nat): Bytes {
    if script == [] then [] else script[0].data[..Min(size, |script[0].data|)]
  }

  lemma PopAppend(script: seq<Read>, tail: seq<Read>, size: nat)
    requires script != []
    ensures Pop(script + tail, size) == (Pop(script, size).0, Pop(script, size).1 + tail)
  {
    assert (script + tail)[0] == script[0] && (script + tail)[1..] == script[1..] + tail;
    if |script[0].data| > size {
      var left := [script[0].(data := script[0].data[size..])];
      assert left + (script[1..] + tail) == (left + script[1..]) + tail;
    }
  }

  lemma ContentCons(r: Read, script: seq<Read>)
    ensures Content([r] + script) == r.data + Content(script)
  {
    assert ([r] + script)[1..] == script;
  }

  lemma Rejoin(a: Bytes, size: nat, b: Bytes)
    requires size <= |a|
    ensures a[..size] + (a[size..] + b) == a + b
  { }

  lemma PopContent(script: seq<Read>, size: nat)
    requires script != []
    ensures var (r, rest) := Pop(script, size); Content(script) == r.data + Content(rest)
  {
    if |script[0].data| > size {
      ContentCons(script[0].(data := script[0].data[size..]), script[1..]);
      Rejoin(script[0].data, size, Content(script[1..]));
    }
  }

  lemma PopHealthy(script: seq<Read>, size: nat)
    requires script != [] && Healthy(script) && size > 0
    ensures var (r, rest) := Pop(script, size);
      r.data == FirstBlock(script, size) && r.data != [] && !r.status.Broken? && Healthy(rest)
  {
    if |script[0].data| > size {
      var rest := Pop(script, size).1;
      assert forall i :: 1 <= i < |rest| ==> rest[i] == script[i];
    }
  }

  /** With a buffer of any size above 0, healthy reads are taken whole, whatever follows. */
  lemma {:induction false} GatherAppend(script: seq<Read>, size: nat, tail: seq<Read>)
    requires Healthy(script) && size > 0
    ensures var g := Gather(tail, size);
      Gather(script + tail, size)
      == Gathered(Content(script) + g.content, if script == [] then g.first else FirstBlock(script, size), g.broken)
    decreases Length(script)
  {
    if script == [] {
      assert script + tail == tail;
    } else {
      PopAppend(script, tail, size);
      PopHealthy(script, size);
      PopContent(script, size);
      PopShrinks(script, size);
      var (r, rest) := Pop(script, size);
      GatherAppend(rest, size, tail);
      GatherStep(script + tail, size);
      hide Pop, FirstBlock, Content, Healthy, Gather;
      assert r.data + (Content(rest) + Gather(tail, size).content)
        == (r.data + Content(rest)) + Gather(tail, size).content;
    }
  }

  /** A healthy reader is read to its end. */
  lemma GathersAll(script: seq<Read>, size: nat)
    requires Healthy(script) && size > 0
    ensures Gather(script, size) == Gathered(Content(script), FirstBlock(script, size), false)
  {
    GatherAppend(script, size, []);
    assert script + [] == script;
    assert Content(script) + [] == Content(script);
  }

  /** Two ways of cutting the same content, with the same first block, give the same entry. */
  lemma ChunkingIndependent<V>(codecs: Codecs<V>, a: seq<Read>, m: nat, b: seq<Read>, n: nat)
    requires Healthy(a) && Healthy(b) && m > 0 && n > 0
    requires Content(a) == Content(b) && FirstBlock(a, m) == FirstBlock(b, n)
    ensures EntryFor(codecs, Gather(a, m)) == EntryFor(codecs, Gather(b, n))
      == EntryFor(codecs, Gathered(Content(a), FirstBlock(a, m), false))
  {
    GathersAll(a, m);
    GathersAll(b, n);
  }

  /** An empty read before the end cuts the content short there. */
  lemma EmptyReadTruncates(script: seq<Read>, size: nat, rest: seq<Read>)
    requires Healthy(script) && size > 0
    ensures Gather(script + ([Read([], Fine)] + rest), size) == Gather(script, size)
  {
    GatherAppend(script, size, [Read([], Fine)] + rest);
    GatherAppend(script, size, []);
    assert script + [] == script;
  }

  // --- what a file's entry says

  /** Everything of a file that matters when no read fails: its first block, and its content. */
  lemma EntryOfFile<V>(codecs: Codecs<V>, script: seq<Read>, size: nat)
    requires Healthy(script) && size > 0
    ensures var e, mime := EntryFor(codecs, Gather(script, size)), codecs.detect(FirstBlock(script, size));
      var json, yaml := codecs.json(Content(script)), codecs.yaml(Content(script));
      && (script == [] ==> e == Entry(codecs.empty, NoFormat, false, None))
      && (script != [] && mime.isJson ==> e == Entry(json.doc, Json, false, json.error))
      && (script != [] && !mime.isJson && mime.isText ==>
            e.doc == yaml.doc && e.error == None && e.unrecognized == yaml.error.Some?
            && e.format == if yaml.error.Some? then NoFormat else Yaml)
      && (script != [] && !mime.isJson && !mime.isText ==> e == Entry(codecs.empty, NoFormat, true, None))
  {
    GathersAll(script, size);
    hide Gather, Content;
    if script != [] {
      PopHealthy(script, size);
    }
  }

  /** A read that fails is the file's error, whatever was read before and whatever would have
    * followed, unless the first block had ended the scan.
    */
  lemma EntryOfBrokenFile<V>(codecs: Codecs<V>, script: seq<Read>, size: nat, last: Read, rest: seq<Read>)
    requires Healthy(script) && size > 0 && last.status.Broken? && |last.data| <= size
    ensures var e := EntryFor(codecs, Gather(script + ([last] + rest), size));
      var mime := codecs.detect(FirstBlock(script, size));
      if script != [] && !mime.isJson && !mime.isText then e == Entry(codecs.empty, NoFormat, true, None)
      else e == Entry(codecs.empty, NoFormat, false, Some(ReadError))
  {
    GatherAppend(script, size, [last] + rest);
    assert ([last] + rest)[0] == last;
    GatherStep([last] + rest, size);
    hide Gather, Content;
    if script != [] {
      PopHealthy(script, size);
    }
  }

  // --- scanning an archive

  /** The tar reader hands out items until its end or an error. */
  datatype Item = Item(name: string, regular: bool, script: seq<Read>) | BadHeader

  datatype ScanResult<V> = ScanResult(entries: map<string, Entry<V>>, failed: bool)

  predicate Configured(globs: seq<string -> bool>, path: string) {
    exists i :: 0 <= i < |globs| && globs[i](path)
  }

  method IsConfigured(globs: seq<string -> bool>, path: string) returns (configured: bool)
    ensures configured <==> exists i :: 0 <= i < |globs| && globs[i](path)
  {
    for i := 0 to |globs|
      invariant forall j :: 0 <= j < i ==> !globs[j](path)
    {
      if globs[i](path) {
        return true;
      }
    }
    configured := false;
  }

  predicate IsScanned<V>(codecs: Codecs<V>, item: Item) {
    item.Item? && item.regular && Configured(codecs.globs, item.name)
  }

  function EntryOf<V>(codecs: Codecs<V>, item: Item, size: nat): Entry<V>
    requires item.Item?
  {
    EntryFor(codecs, Gather(item.script, size))
  }

  function Scanned<V>(codecs: Codecs<V>, items: seq<Item>, size: nat): (result: ScanResult<V>)
  {
    if items == [] then ScanResult(map[], false)
    else
      var n := |items| - 1;
      var before, item := Scanned(codecs, items[..n], size), items[n];
      if !IsScanned(codecs, item) then before
      else
        var entry := EntryOf(codecs, item, size);
        ScanResult(before.entries[item.name := entry], before.failed || entry.error.Some?)
  }

  predicate AllGood(items: seq<Item>) {
    forall i :: 0 <= i < |items| ==> items[i].Item?
  }

  /** No result for an archive that is not compressed or has a bad header. */
  method ScanArchive<V>(codecs: Codecs<V>, compressed: bool, items: seq<Item>,
      size: nat) returns (result: Option<ScanResult<V>>)
    ensures result == if compressed && AllGood(items) then Some(Scanned(codecs, items, size)) else None
  {
    if !compressed {
      return None;
    }
    var entries: map<string, Entry<V>>, failed := map[], false;
    for i := 0 to |items|
      invariant AllGood(items[..i]) && ScanResult(entries, failed) == Scanned(codecs, items[..i], size)
    {
      assert items[..i + 1][..i] == items[..i];
      if items[i].BadHeader? {
        return None;
      }
      if !items[i].regular {
        continue;
      }
      var configured := IsConfigured(codecs.globs, items[i].name);
      if !configured {
        continue;
      }
      var reader := new Reader(items[i].script);
      var entry := ScanEntry(codecs, reader, size);
      if entry.error.Some? {
        failed := true;
      }
      entries := entries[items[i].name := entry];
    }
    assert items[..|items|] == items;
    result := Some(ScanResult(entries, failed));
  }

  /** Item `i` is the last scanned one of its name. */
  ghost predicate IsLast<V>(codecs: Codecs<V>, items: seq<Item>, path: string, i: nat) {
    && i < |items| && IsScanned(codecs, items[i]) && items[i].name == path
    && forall j :: i < j < |items| && IsScanned(codecs, items[j]) ==> items[j].name != path
  }

  /** The entries are those of the regular matching files, the last of a name winning. */
  lemma {:induction false} LastWins<V>(codecs: Codecs<V>, items: seq<Item>, size: nat, path: string)
    ensures path in Scanned(codecs, items, size).entries <==> exists i: nat :: IsLast(codecs, items, path, i)
    ensures forall i: nat :: IsLast(codecs, items, path, i) ==>
      Scanned(codecs, items, size).entries[path] == EntryOf(codecs, items[i], size)
    decreases |items|
  {
    if items != [] {
      var n := |items| - 1;
      LastWins(codecs, items[..n], size, path);
      if IsScanned(codecs, items[n]) && items[n].name == path {
        assert IsLast(codecs, items, path, n);
      } else {
        forall i: nat ensures IsLast(codecs, items, path, i) <==> IsLast(codecs, items[..n], path, i) { }
      }
    }
  }

  /** Only regular files whose name some glob matches have an entry, and each of them has one. */
  lemma OnlyRegularMatching<V>(codecs: Codecs<V>, items: seq<Item>, size: nat, path: string)
    ensures path in Scanned(codecs, items, size).entries <==>
      (exists i :: 0 <= i < |items| && items[i].Item? && items[i].regular && items[i].name == path)
      && exists j :: 0 <= j < |codecs.globs| && codecs.globs[j](path)
  {
    LastWins(codecs, items, size, path);
    if (exists i :: 0 <= i < |items| && items[i].Item? && items[i].regular && items[i].name == path)
      && exists j :: 0 <= j < |codecs.globs| && codecs.globs[j](path)
    {
      var i :| 0 <= i < |items| && items[i].Item? && items[i].regular && items[i].name == path;
      LastOfName(codecs, items, path, i);
    }
  }

  lemma LastOfName<V>(codecs: Codecs<V>, items: seq<Item>, path: string, i: nat)
    requires i < |items| && IsScanned(codecs, items[i]) && items[i].name == path
    ensures exists j: nat :: IsLast(codecs, items, path, j)
    decreases |items| - i
  {
    if k: nat :| i < k < |items| && IsScanned(codecs, items[k]) && items[k].name == path {
      LastOfName(codecs, items, path, k);
    } else {
      assert IsLast(codecs, items, path, i);
    }
  }

  ghost predicate ErredIn<V>(codecs: Codecs<V>, items: seq<Item>, size: nat) {
    exists i :: 0 <= i < |items| && IsScanned(codecs, items[i]) && EntryOf(codecs, items[i], size).error.Some?
  }

  /** The scan failed exactly when some scanned file erred, even one whose entry was replaced. */
  lemma {:induction false} FailedWhenErred<V>(codecs: Codecs<V>, items: seq<Item>, size: nat)
    ensures Scanned(codecs, items, size).failed <==> ErredIn(codecs, items, size)
    decreases |items|
  {
    if items != [] {
      var n := |items| - 1;
      FailedWhenErred(codecs, items[..n], size);
      if ErredIn(codecs, items[..n], size) {
        var i :| 0 <= i < n && IsScanned(codecs, items[i]) && EntryOf(codecs, items[..n][i], size).error.Some?;
        assert IsScanned(codecs, items[i]) && EntryOf(codecs, items[i], size).error.Some?;
      }
    }
  }
}
