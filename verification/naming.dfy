/** File names of uploads and results (detect_nudity in app.py): an upload is
    stored as `<timestamp>_<id><extension>` and its annotated copy as
    `result_` followed by the upload's name. The timestamp is the local time
    formatted as `%Y%m%d_%H%M%S`, the id is the 32-character hexadecimal form
    of a random UUID, and the extension is that of the uploaded file; all
    three are inputs here. */
module Naming {

  datatype Option<T> = None | Some(value: T)

  const ResultPrefix: string := "result_"

  /** Characters in a `%Y%m%d_%H%M%S` timestamp (four-digit years). */
  const TimestampLength: nat := 15

  /** Characters in the hexadecimal form of a UUID. */
  const IdLength: nat := 32

  predicate IsDigit(ch: char)
  {
    '0' <= ch <= '9'
  }

  predicate IsHexDigit(ch: char)
  {
    IsDigit(ch) || 'a' <= ch <= 'f'
  }

  /** The shape of `datetime.now().strftime('%Y%m%d_%H%M%S')`: eight digits,
      an underscore, six digits. */
  predicate ValidTimestamp(ts: string)
  {
    && |ts| == TimestampLength
    && forall i :: 0 <= i < |ts| ==> if i == 8 then ts[i] == '_' else IsDigit(ts[i])
  }

  /** The shape of `uuid.uuid4().hex`. */
  predicate ValidId(id: string)
  {
    |id| == IdLength && forall i :: 0 <= i < |id| ==> IsHexDigit(id[i])
  }

  /** The stored name of an upload. */
  function UploadName(timestamp: string, id: string, ext: string): (name: string)
    ensures |name| == |timestamp| + 1 + |id| + |ext|
    ensures name[..|timestamp|] == timestamp && name[|timestamp|] == '_'
    ensures name[|timestamp| + 1..|timestamp| + 1 + |id|] == id
    ensures name[|timestamp| + 1 + |id|..] == ext
  {
    timestamp + "_" + id + ext
  }

  /** The name of the annotated copy of an upload; removing the prefix gives
      the upload's name back. */
  function ResultName(upload: string): (name: string)
    ensures |name| == |ResultPrefix| + |upload|
    ensures name[..|ResultPrefix|] == ResultPrefix
    ensures name[|ResultPrefix|..] == upload
  {
    ResultPrefix + upload
  }

  /** The result name for an upload's timestamp, id and extension: it starts
      with the prefix and ends with the uploaded file's own extension. */
  function ResultFileName(timestamp: string, id: string, ext: string): (name: string)
    ensures |name| >= |ResultPrefix| + |ext|
    ensures name[..|ResultPrefix|] == ResultPrefix
    ensures name[|name| - |ext|..] == ext
  {
    var upload := UploadName(timestamp, id, ext);
    var name := ResultName(upload);
    assert name[|name| - |ext|..] == upload[|upload| - |ext|..];
    name
  }

  /** Splits a result name back into timestamp, id and extension, when it
      has the shape the upload handler produces. */
  function ParseResultName(name: string): (r: Option<(string, string, string)>)
    ensures r.Some? ==>
      && ValidTimestamp(r.value.0)
      && ValidId(r.value.1)
      && name == ResultFileName(r.value.0, r.value.1, r.value.2)
  {
    var p := |ResultPrefix|;
    var t := p + TimestampLength;
    var e := t + 1 + IdLength;
    if |name| >= e && name[..p] == ResultPrefix && name[t] == '_'
       && ValidTimestamp(name[p..t]) && ValidId(name[t + 1..e])
    then
      assert name == name[..p] + name[p..t] + "_" + name[t + 1..e] + name[e..];
      Some((name[p..t], name[t + 1..e], name[e..]))
    else
      None
  }

  /** Parsing a result name recovers what it was built from. */
  lemma ParseResultFileName(timestamp: string, id: string, ext: string)
    requires ValidTimestamp(timestamp) && ValidId(id)
    ensures ParseResultName(ResultFileName(timestamp, id, ext)) == Some((timestamp, id, ext))
  {
    var name := ResultFileName(timestamp, id, ext);
    var p := |ResultPrefix|;
    var t := p + TimestampLength;
    var e := t + 1 + IdLength;
    assert name == ResultPrefix + (timestamp + "_" + id + ext);
    assert name[p..t] == timestamp;
    assert name[t] == '_';
    assert name[t + 1..e] == id;
    assert name[e..] == ext;
  }

  /** Uploads with different ids (or timestamps, or extensions) never share a
      result name. */
  lemma ResultFileNamesDistinct(ts1: string, id1: string, ext1: string, ts2: string, id2: string, ext2: string)
    requires ValidTimestamp(ts1) && ValidId(id1)
    requires ValidTimestamp(ts2) && ValidId(id2)
    requires (ts1, id1, ext1) != (ts2, id2, ext2)
    ensures ResultFileName(ts1, id1, ext1) != ResultFileName(ts2, id2, ext2)
  {
    ParseResultFileName(ts1, id1, ext1);
    ParseResultFileName(ts2, id2, ext2);
  }
}
