/**
 * The upload relay's bookkeeping: the `files` dictionary filled by a forEach
 * over `req.files` (one read stream per field name, a later file replacing an
 * earlier one of the same field name), the multipart form built from the body
 * and that dictionary, and the paths the relay's callback unlinks.
 */
module Upload {
  import opened Js

  /** A file part stored by multer: its form field name, temporary path and original file name. */
  datatype UploadedFile = UploadedFile(fieldName: string, path: string, originalName: string)

  /** A part of the relayed multipart form: a copied body field, or a read stream over a temporary file. */
  datatype FormPart = Field(value: Value) | Stream(path: string)

  /**
   * The one field name that never becomes a key: `files["__proto__"] = stream`
   * runs the inherited `__proto__` setter, which replaces the dictionary's
   * prototype instead of creating an own key.
   */
  const ProtoKey: string := "__proto__"

  function FieldNames(files: seq<UploadedFile>): set<string>
  {
    set i | 0 <= i < |files| :: files[i].fieldName
  }

  function PathsOf(files: seq<UploadedFile>): set<string>
  {
    set i | 0 <= i < |files| :: files[i].path
  }

  /** The temporary paths of the files uploaded under the field name "__proto__". */
  function ProtoPaths(files: seq<UploadedFile>): set<string>
  {
    set i | 0 <= i < |files| && files[i].fieldName == ProtoKey :: files[i].path
  }

  /** No two uploaded files share a temporary path (multer names each one afresh). */
  predicate DistinctPaths(files: seq<UploadedFile>)
  {
    forall i, j :: 0 <= i < j < |files| ==> files[i].path != files[j].path
  }

  /** No two uploaded files share a field name. */
  predicate DistinctFieldNames(files: seq<UploadedFile>)
  {
    forall i, j :: 0 <= i < j < |files| ==> files[i].fieldName != files[j].fieldName
  }

  /**
   * The `files` dictionary after `files[file.fieldname] = stream(file.path)`
   * for each file in turn, as a map from field name to the path of its stream:
   * one entry per field name other than "__proto__", each holding a path that
   * was uploaded.
   */
  function StreamMap(files: seq<UploadedFile>): (m: map<string, string>)
    ensures m.Keys == FieldNames(files) - {ProtoKey}
    ensures m.Values <= PathsOf(files)
    decreases |files|
  {
    if |files| == 0 then map[]
    else
      var init, last := files[..|files| - 1], files[|files| - 1];
      assert FieldNames(files) == FieldNames(init) + {last.fieldName} by {
        assert forall i :: 0 <= i < |init| ==> files[i] == init[i];
      }
      assert PathsOf(files) == PathsOf(init) + {last.path} by {
        assert forall i :: 0 <= i < |init| ==> files[i] == init[i];
      }
      if last.fieldName == ProtoKey then StreamMap(init) else StreamMap(init)[last.fieldName := last.path]
  }

  /** `Object.keys(files)`: the own keys, in the order in which each was first assigned. */
  function FieldOrder(files: seq<UploadedFile>): seq<string>
    decreases |files|
  {
    if |files| == 0 then []
    else
      var prior := FieldOrder(files[..|files| - 1]);
      var name := files[|files| - 1].fieldName;
      if name in prior || name == ProtoKey then prior else prior + [name]
  }

  /** The key order names every key of the dictionary exactly once. */
  lemma {:induction false} FieldOrderEnumerates(files: seq<UploadedFile>)
    ensures forall i, j :: 0 <= i < j < |FieldOrder(files)| ==> FieldOrder(files)[i] != FieldOrder(files)[j]
    ensures forall k :: k in FieldOrder(files) <==> k in StreamMap(files)
    decreases |files|
  {
    if |files| > 0 {
      FieldOrderEnumerates(files[..|files| - 1]);
    }
  }

  /**
   * The forEach that fills the `files` dictionary, keeping the key order of
   * the JavaScript object beside the map.
   */
  method CollectStreams(files: seq<UploadedFile>) returns (order: seq<string>, streams: map<string, string>)
    ensures order == FieldOrder(files) && streams == StreamMap(files)
  {
    order, streams := [], map[];
    for n := 0 to |files|
      invariant order == FieldOrder(files[..n])
      invariant streams == StreamMap(files[..n])
    {
      assert files[..n + 1][..n] == files[..n];
      var file := files[n];
      if file.fieldName != ProtoKey {
        if file.fieldName !in order {
          order := order + [file.fieldName];
        }
        streams := streams[file.fieldName := file.path];
      }
    }
    assert files[..|files|] == files;
  }

  /**
   * The paths the relay's callback unlinks, in order: `files[key].path` for
   * each key of the dictionary.
   */
  function UnlinkOrder(files: seq<UploadedFile>): seq<string>
  {
    FieldOrderEnumerates(files);
    Lookup(FieldOrder(files), StreamMap(files))
  }

  /** The set of elements of a sequence. */
  function Elements(s: seq<string>): (r: set<string>)
    ensures forall x :: x in r <==> x in s
  {
    if |s| == 0 then {} else Elements(s[..|s| - 1]) + {s[|s| - 1]}
  }

  /**
   * The callback unlinks exactly the paths held by the dictionary, one unlink
   * per key.
   */
  lemma UnlinkOrderEnumerates(files: seq<UploadedFile>)
    ensures |UnlinkOrder(files)| == |StreamMap(files)|
    ensures forall p :: p in UnlinkOrder(files) <==> p in StreamMap(files).Values
    ensures Elements(UnlinkOrder(files)) == StreamMap(files).Values
  {
    FieldOrderEnumerates(files);
    LookupCoversValues(FieldOrder(files), StreamMap(files));
    DistinctCardinality(FieldOrder(files), StreamMap(files).Keys);
  }

  /** Looking up every key of a map yields exactly its values. */
  lemma LookupCoversValues(order: seq<string>, streams: map<string, string>)
    requires forall k :: k in order <==> k in streams
    ensures forall p :: p in Lookup(order, streams) <==> p in streams.Values
  {
    var r := Lookup(order, streams);
    forall p | p in streams.Values ensures p in r {
      var k :| k in streams && streams[k] == p;
      var i :| 0 <= i < |order| && order[i] == k;
      assert r[i] == p;
    }
  }

  /** The values of `streams` at the keys `order`, in that order. */
  function Lookup(order: seq<string>, streams: map<string, string>): (r: seq<string>)
    requires forall i :: 0 <= i < |order| ==> order[i] in streams
    ensures |r| == |order| && forall i :: 0 <= i < |order| ==> r[i] == streams[order[i]]
  {
    if |order| == 0 then [] else Lookup(order[..|order| - 1], streams) + [streams[order[|order| - 1]]]
  }

  /** A sequence without repetitions has as many elements as the set it enumerates. */
  lemma {:induction false} DistinctCardinality(s: seq<string>, keys: set<string>)
    requires forall i, j :: 0 <= i < j < |s| ==> s[i] != s[j]
    requires forall k :: k in s <==> k in keys
    ensures |s| == |keys|
  {
    if |s| > 0 {
      var last := s[|s| - 1];
      var init := s[..|s| - 1];
      assert forall k :: k in init <==> k in keys - {last} by {
        forall k ensures k in init <==> k in keys - {last} {
          if k in init {
            var i :| 0 <= i < |init| && init[i] == k;
            assert s[i] == k;
          }
          if k in keys - {last} {
            assert k in s;
            var i :| 0 <= i < |s| && s[i] == k;
            assert i < |s| - 1;
            assert init[i] == k;
          }
        }
      }
      DistinctCardinality(init, keys - {last});
    }
  }

  /**
   * Every entry of the dictionary holds the path of the LAST uploaded file
   * with that field name.
   */
  lemma {:induction false} StreamMapEntry(files: seq<UploadedFile>, k: string)
    requires k in StreamMap(files)
    ensures exists i :: 0 <= i < |files| && files[i].fieldName == k && StreamMap(files)[k] == files[i].path
                        && forall j :: i < j < |files| ==> files[j].fieldName != k
    decreases |files|
  {
    var n := |files|;
    var init, last := files[..n - 1], files[n - 1];
    if last.fieldName == k {
      assert k != ProtoKey;
      assert files[n - 1].fieldName == k && StreamMap(files)[k] == files[n - 1].path;
    } else {
      StreamMapEntry(init, k);
      var i :| 0 <= i < |init| && init[i].fieldName == k && StreamMap(init)[k] == init[i].path
                && forall j :: i < j < |init| ==> init[j].fieldName != k;
      assert files[i] == init[i];
      assert forall j :: i < j < n ==> files[j].fieldName != k by {
        forall j | i < j < n ensures files[j].fieldName != k {
          if j < n - 1 { assert files[j] == init[j]; }
        }
      }
    }
  }

  /** A file that is the last of its field name, other than "__proto__", is the one the dictionary keeps. */
  lemma {:induction false} StreamMapLastWins(files: seq<UploadedFile>, i: nat)
    requires i < |files| && files[i].fieldName != ProtoKey
    requires forall j :: i < j < |files| ==> files[j].fieldName != files[i].fieldName
    ensures files[i].fieldName in StreamMap(files)
    ensures StreamMap(files)[files[i].fieldName] == files[i].path
    decreases |files|
  {
    var n := |files|;
    var init := files[..n - 1];
    if i < n - 1 {
      assert init[i] == files[i];
      assert forall j :: i < j < |init| ==> init[j] == files[j];
      StreamMapLastWins(init, i);
    }
  }

  /**
   * A file followed by another of the same field name has no stream in the
   * dictionary, so the relay never sends it and its callback never unlinks it.
   */
  lemma ShadowedFileNotStreamed(files: seq<UploadedFile>, i: nat, j: nat)
    requires DistinctPaths(files)
    requires i < j < |files| && files[i].fieldName == files[j].fieldName
    ensures files[i].path !in StreamMap(files).Values
    ensures files[i].path !in UnlinkOrder(files)
  {
    UnlinkOrderEnumerates(files);
    var m := StreamMap(files);
    forall k | k in m ensures m[k] != files[i].path {
      StreamMapEntry(files, k);
      var i' :| 0 <= i' < |files| && files[i'].fieldName == k && m[k] == files[i'].path
                && forall j' :: i' < j' < |files| ==> files[j'].fieldName != k;
      assert i' != i;
    }
  }

  /**
   * With distinct field names every uploaded file except one named
   * "__proto__" gets a stream, so every one of those is unlinked.
   */
  lemma DistinctFieldsAllStreamed(files: seq<UploadedFile>)
    requires DistinctFieldNames(files)
    ensures forall i :: 0 <= i < |files| && files[i].fieldName != ProtoKey ==> files[i].path in StreamMap(files).Values
    ensures forall i :: 0 <= i < |files| && files[i].fieldName != ProtoKey ==> files[i].path in UnlinkOrder(files)
  {
    UnlinkOrderEnumerates(files);
    forall i | 0 <= i < |files| && files[i].fieldName != ProtoKey ensures files[i].path in StreamMap(files).Values {
      StreamMapLastWins(files, i);
    }
  }

  /**
   * A file uploaded under the field name "__proto__" has no stream in the
   * dictionary, so the relay never sends it and its callback never unlinks it.
   */
  lemma ProtoFieldNotStreamed(files: seq<UploadedFile>, i: nat)
    requires DistinctPaths(files)
    requires i < |files| && files[i].fieldName == ProtoKey
    ensures files[i].path !in StreamMap(files).Values
    ensures files[i].path !in UnlinkOrder(files)
  {
    UnlinkOrderEnumerates(files);
    var m := StreamMap(files);
    forall k | k in m ensures m[k] != files[i].path {
      StreamMapEntry(files, k);
      var i' :| 0 <= i' < |files| && files[i'].fieldName == k && m[k] == files[i'].path
                && forall j' :: i' < j' < |files| ==> files[j'].fieldName != k;
      assert i' != i;
    }
  }

  /**
   * `{...req.body, ...files}`: every body field and every stream, a stream
   * replacing a body field of the same name.
   */
  function FormData(fields: map<string, Value>, streams: map<string, string>): (form: map<string, FormPart>)
    ensures form.Keys == fields.Keys + streams.Keys
    ensures forall k :: k in streams ==> form[k] == Stream(streams[k])
    ensures forall k :: k in fields && k !in streams ==> form[k] == Field(fields[k])
  {
    map k | k in fields.Keys + streams.Keys :: if k in streams then Stream(streams[k]) else Field(fields[k])
  }
}
