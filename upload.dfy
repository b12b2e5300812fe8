/**
 * What a file read leaves behind: the data URL kept for the preview, the base64 payload
 * sent to the model, and the file's MIME type.
 */
module Upload {
  import opened Wrappers
  import opened Text

  /**
   * `result.split(',')[1]`: the text between the first comma and the next one (or the end);
   * absent, as `undefined` is, when there is no comma at all.
   */
  function CommaSegment(dataUrl: string): (r: Option<string>)
    ensures r.Some? <==> ',' in dataUrl
    ensures r.Some? ==> ',' !in r.value
  {
    var fields := Split(dataUrl, ',');
    if |fields| >= 2 then Some(fields[1]) else None
  }

  /**
   * Text between two comma-free pieces joined by one comma is what `split(',')[1]` picks out,
   * whatever the pieces are.
   */
  lemma CommaSegmentOf(a: string, b: string)
    requires ',' !in a && ',' !in b
    ensures CommaSegment(a + [','] + b) == Some(b)
  {
    assert a + [','] + b == Join([a, b], ',');
    SplitJoin([a, b], ',');
  }

  /**
   * The payload of a data URL built from comma-free parts is exactly its base64 text, so an
   * empty file (whose data URL ends in the comma) leaves no usable payload.
   */
  lemma DataUrlPayload(mimeType: string, data: string)
    requires ',' !in mimeType && ',' !in data
    ensures CommaSegment(DataUrl(mimeType, data)) == Some(data)
    ensures Truthy(CommaSegment(DataUrl(mimeType, data))) <==> data != ""
  {
    var head := "data:" + mimeType + ";base64";
    assert ',' !in head by {
      assert forall k :: 0 <= k < |head| ==> head[k] == ("data:" + mimeType + ";base64")[k];
      assert forall k :: 5 <= k < 5 + |mimeType| ==> head[k] == mimeType[k - 5];
    }
    assert DataUrl(mimeType, data) == head + [','] + data;
    CommaSegmentOf(head, data);
  }

  /** The three fields a file read writes. */
  datatype UploadState = UploadState(display: Option<string>, image: Option<string>, mimeType: string)

  /** The payload is the one the preview's data URL carries, and there is none without a preview. */
  predicate Coherent(u: UploadState) {
    u.image == if u.display.Some? then CommaSegment(u.display.value) else None
  }
}
