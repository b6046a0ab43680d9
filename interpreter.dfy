/**
 * How the handler reads a response (App.tsx:100-115): the first part
 * carrying inline data becomes a data URL; without one, the response
 * text (or a fixed phrase) becomes the error.
 */
module Interpreter {
  import opened Wrappers
  import opened DataUrls
  import opened GenAi

  /** The outcome of one attempt: the image shown, or the error shown. */
  datatype GenerationResult = Shown(dataUrl: string) | Failed(message: string)

  const NoImagePrefix := "Không thể tạo ảnh. Phản hồi từ AI: "
  const NoImageFallback := "Không có hình ảnh nào được trả về."

  /** The data URL of the first part with inline data, if any. */
  function FirstImage(parts: seq<Part>): Option<string>
    decreases |parts|
  {
    if |parts| == 0 then None
    else match parts[0].inlineData
      case Some(blob) => Some(DataUrl(blob.mimeType, blob.data))
      case None => FirstImage(parts[1..])
  }

  /** The first part with inline data wins: the parts before it are skipped, the ones after it ignored. */
  lemma {:induction false} FirstImageAt(parts: seq<Part>, i: nat)
    requires i < |parts| && parts[i].inlineData.Some?
    requires forall j :: 0 <= j < i ==> parts[j].inlineData.None?
    ensures FirstImage(parts) == Some(DataUrl(parts[i].inlineData.value.mimeType, parts[i].inlineData.value.data))
    decreases i
  {
    if i > 0 {
      FirstImageAt(parts[1..], i - 1);
    }
  }

  /** There is no image exactly when no part carries inline data. */
  lemma {:induction false} NoFirstImage(parts: seq<Part>)
    ensures FirstImage(parts) == None <==> forall j :: 0 <= j < |parts| ==> parts[j].inlineData.None?
    decreases |parts|
  {
    if |parts| > 0 {
      NoFirstImage(parts[1..]);
      if parts[0].inlineData.None? {
        assert forall j :: 1 <= j < |parts| ==> parts[j] == parts[1..][j - 1];
      }
    }
  }

  /** Parts appended after an image never change the result. */
  lemma {:induction false} LaterPartsIgnored(parts: seq<Part>, later: seq<Part>)
    requires FirstImage(parts).Some?
    ensures FirstImage(parts + later) == FirstImage(parts)
    decreases |parts|
  {
    assert (parts + later)[0] == parts[0];
    if parts[0].inlineData.None? {
      assert (parts + later)[1..] == parts[1..] + later;
      LaterPartsIgnored(parts[1..], later);
    }
  }

  /** The error text when no image came back: the response text, or the fixed phrase when it is empty or absent. */
  function NoImageMessage(text: Option<string>): string
  {
    NoImagePrefix + (if text.Some? && text.value != "" then text.value else NoImageFallback)
  }

  /** What one successful call shows. */
  function Interpret(r: Response): GenerationResult
  {
    match FirstImage(ResponseParts(r))
    case Some(url) => Shown(url)
    case None => Failed(NoImageMessage(r.text))
  }

  /**
   * A response yields an error exactly when none of its first candidate's
   * parts has inline data; the error then carries the response text after
   * the fixed prefix, or the fixed phrase when that text is empty or absent.
   */
  lemma InterpretFails(r: Response)
    ensures Interpret(r).Failed? <==> forall j :: 0 <= j < |ResponseParts(r)| ==> ResponseParts(r)[j].inlineData.None?
    ensures Interpret(r).Failed? ==>
      var m := Interpret(r).message;
      |NoImagePrefix| <= |m| && m[..|NoImagePrefix|] == NoImagePrefix &&
      m[|NoImagePrefix|..] == if r.text.Some? && r.text.value != "" then r.text.value else NoImageFallback
  {
    NoFirstImage(ResponseParts(r));
    if Interpret(r).Failed? {
      var tail := if r.text.Some? && r.text.value != "" then r.text.value else NoImageFallback;
      assert Interpret(r).message == NoImagePrefix + tail;
    }
  }
}
