/**
 * `upload_documents`: after creating the Supabase client (not modelled),
 * validates the embedding provider, then walks the
 * document directory and adds one record per regular file to the vector
 * store. The walk itself is an input: every path below the directory that
 * the recursive glob yields, in its order, with each file's text.
 */
module Upload {
  import opened Wrappers
  import opened Text
  import Config

  /** One path of the walk: its components, whether it is a regular file, and the file's text. */
  datatype Entry = Entry(parts: seq<string>, isFile: bool, content: string)

  datatype Metadata = Metadata(source: string, filename: string)

  datatype Record = Record(text: string, metadata: Metadata)

  /** `str(path)`: the components joined by "/". */
  function PathString(parts: seq<string>): string {
    Join(parts, "/")
  }

  /** `path.name`: the final component, "" for an empty path. */
  function FileName(parts: seq<string>): string {
    if parts == [] then "" else parts[|parts| - 1]
  }

  /** The text store, reduced to the records added to it. */
  class VectorStore {
    var records: seq<Record>

    constructor ()
      ensures records == []
    {
      records := [];
    }

    /** `add_texts(texts, metadatas)`: one record per text, paired with its metadata. */
    method AddTexts(texts: seq<string>, metadatas: seq<Metadata>)
      requires |texts| == |metadatas|
      modifies this
      ensures records == old(records) + seq(|texts|, i requires 0 <= i < |texts| => Record(texts[i], metadatas[i]))
    {
      records := records + seq(|texts|, i requires 0 <= i < |texts| => Record(texts[i], metadatas[i]));
    }
  }

  /** The regular files of the walk, in walk order. */
  function Files(entries: seq<Entry>): seq<Entry> {
    if entries == [] then []
    else Files(entries[..|entries| - 1])
         + (if entries[|entries| - 1].isFile then [entries[|entries| - 1]] else [])
  }

  /** The record stored for a file: its whole text, its path and its name. */
  function RecordOf(e: Entry): (r: Record) {
    Record(e.content, Metadata(PathString(e.parts), FileName(e.parts)))
  }

  function RecordsOf(files: seq<Entry>): (r: seq<Record>)
    ensures |r| == |files|
  {
    seq(|files|, i requires 0 <= i < |files| => RecordOf(files[i]))
  }

  /** The positions of the regular files in the walk. */
  function FileIndices(entries: seq<Entry>): set<nat> {
    set i: nat | i < |entries| && entries[i].isFile
  }

  /** Directories are skipped and every regular file is kept, in walk order. */
  lemma {:induction false} FilesMembers(entries: seq<Entry>)
    ensures forall e :: e in Files(entries) <==> e in entries && e.isFile
  {
    if entries != [] {
      var n := |entries| - 1;
      FilesMembers(entries[..n]);
      assert entries == entries[..n] + [entries[n]];
    }
  }

  /** There is one file per position of the walk that holds a regular file. */
  lemma {:induction false} FilesCount(entries: seq<Entry>)
    ensures |Files(entries)| == |FileIndices(entries)|
  {
    if entries != [] {
      var n := |entries| - 1;
      FilesCount(entries[..n]);
      var before := FileIndices(entries[..n]);
      assert FileIndices(entries) == before + (if entries[n].isFile then {n} else {}) by {
        forall i: nat | i < n
          ensures entries[..n][i] == entries[i]
        {
        }
      }
    }
  }

  /**
   * A record holds the whole file as its text and the full path as its
   * source. When no path component contains "/", its filename is exactly
   * the text after the source's last "/", or the whole source when there
   * is none.
   */
  lemma RecordNamesItsFile(e: Entry)
    ensures RecordOf(e).text == e.content
    ensures RecordOf(e).metadata.source == PathString(e.parts)
    ensures e.parts != [] ==>
            var source, name := RecordOf(e).metadata.source, RecordOf(e).metadata.filename;
            |name| <= |source| && source[|source| - |name|..] == name
    ensures e.parts != [] && (forall k :: 0 <= k < |e.parts| ==> '/' !in e.parts[k]) ==>
            var source, name := RecordOf(e).metadata.source, RecordOf(e).metadata.filename;
            && '/' !in name
            && (|name| == |source| || (|name| < |source| && source[|source| - |name| - 1] == '/'))
  {
    if e.parts != [] {
      JoinEndsWithLast(e.parts, "/");
    }
  }

  /**
   * Once the Supabase client exists, the provider is validated; if it is
   * rejected nothing is stored. Otherwise the walk adds exactly one record
   * per regular file, in walk order, and nothing else.
   */
  method UploadDocuments(entries: seq<Entry>, provider: string, apiKey: Option<string>,
                         projectId: Option<string>, location: Option<string>, store: VectorStore)
    returns (r: Result<Config.Embedder, string>)
    modifies store
    ensures r == Config.ValidateEmbedder(provider, apiKey, projectId, location)
    ensures r.Failure? ==> store.records == old(store.records)
    ensures r.Success? ==> store.records == old(store.records) + RecordsOf(Files(entries))
  {
    r := Config.ValidateEmbedder(provider, apiKey, projectId, location);
    if r.Failure? {
      return;
    }
    for i := 0 to |entries|
      invariant store.records == old(store.records) + RecordsOf(Files(entries[..i]))
    {
      assert entries[..i + 1][..i] == entries[..i];
      var e := entries[i];
      if e.isFile {
        var metadata := Metadata(PathString(e.parts), FileName(e.parts));
        store.AddTexts([e.content], [metadata]);
        assert RecordsOf(Files(entries[..i + 1])) == RecordsOf(Files(entries[..i])) + [RecordOf(e)];
      } else {
        assert Files(entries[..i + 1]) == Files(entries[..i]);
      }
    }
    assert entries[..|entries|] == entries;
  }
}
