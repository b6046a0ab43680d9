/**
 * Data URLs as the handler meets them: the one the browser's reader yields
 * for an uploaded file (`fileToBase64` keeps only its payload, App.tsx:23)
 * and the one the handler builds from a returned image (App.tsx:104).
 */
module DataUrls {
  import opened Wrappers
  import opened JsStrings

  /** `data:<mime>;base64,<data>`. */
  function DataUrl(mimeType: string, data: string): string
  {
    "data:" + mimeType + ";base64," + data
  }

  /**
   * The string step of `fileToBase64`: `result.split(',')[1]`, which is
   * `undefined` (here `None`) when the string holds no comma.
   */
  function Base64Payload(result: string): Option<string>
  {
    var parts := Split(result, ',');
    if |parts| > 1 then Some(parts[1]) else None
  }

  /**
   * Every string is the comma-join of its comma-free pieces (Split's own
   * contract), so this fixes `Base64Payload` on every input: the second
   * piece, that is the text between the first comma and the next comma
   * or the end, and `undefined` when there is no comma at all.
   */
  lemma PayloadOfJoin(pieces: seq<string>)
    requires |pieces| >= 1
    requires forall i :: 0 <= i < |pieces| ==> ',' !in pieces[i]
    ensures Base64Payload(Join(pieces, ',')) == if |pieces| >= 2 then Some(pieces[1]) else None
  {
    SplitJoin(pieces, ',');
  }

  /** A string without a comma has no payload. */
  lemma NoCommaNoPayload(result: string)
    requires ',' !in result
    ensures Base64Payload(result) == None
  {
    PayloadOfJoin([result]);
  }

  /**
   * Stripping the prefix of a data URL gives back its payload, whenever
   * neither the MIME type nor the base64 text holds a comma (base64 text
   * never does).
   */
  lemma PayloadOfDataUrl(mimeType: string, data: string)
    requires ',' !in mimeType && ',' !in data
    ensures Base64Payload(DataUrl(mimeType, data)) == Some(data)
  {
    var head := "data:" + mimeType + ";base64";
    assert ',' !in head;
    assert DataUrl(mimeType, data) == Join([head, data], ',');
    PayloadOfJoin([head, data]);
  }
}
