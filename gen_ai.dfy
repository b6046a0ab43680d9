/**
 * The values exchanged with the hosted image model: the request the
 * handler builds (App.tsx:74-98) and the parts of a response it reads
 * (App.tsx:101, 112). The client library itself is not part of this model.
 */
module GenAi {
  import opened Wrappers

  /** An inline binary payload: a MIME type and base64 text. */
  datatype Blob = Blob(mimeType: string, data: string)

  /** One part of a response: inline data, text, or (both absent) something else. */
  datatype Part = Part(inlineData: Option<Blob>, text: Option<string>)

  datatype Content = Content(parts: Option<seq<Part>>)
  datatype Candidate = Candidate(content: Option<Content>)

  /** A response: its candidates and its plain-text accessor `response.text`. */
  datatype Response = Response(candidates: Option<seq<Candidate>>, text: Option<string>)

  datatype Modality = Image | Text

  /**
   * A request part. An image's data is the result of `fileToBase64`,
   * which is `undefined` (`None`) when the reader's string held no comma.
   */
  datatype RequestPart = InlinePart(mimeType: string, data: Option<string>) | TextPart(text: string)

  datatype Request = Request(model: string, parts: seq<RequestPart>, responseModalities: seq<Modality>)

  const ImageModel := "gemini-2.5-flash-image"

  /** The request: model image, product image, prompt, asking for image and text output. */
  function BuildRequest(modelType: string, modelData: Option<string>,
                        productType: string, productData: Option<string>, prompt: string): Request
  {
    Request(ImageModel,
            [InlinePart(modelType, modelData), InlinePart(productType, productData), TextPart(prompt)],
            [Image, Text])
  }

  /**
   * `response.candidates?.[0]?.content?.parts ?? []`: the parts of the
   * first candidate, and none when any link of that chain is missing.
   */
  function ResponseParts(r: Response): (parts: seq<Part>)
    ensures parts != [] ==>
      r.candidates.Some? && |r.candidates.value| > 0 &&
      r.candidates.value[0].content.Some? &&
      r.candidates.value[0].content.value.parts == Some(parts)
    ensures (r.candidates.Some? && |r.candidates.value| > 0 &&
             r.candidates.value[0].content.Some? && r.candidates.value[0].content.value.parts.Some?) ==>
      parts == r.candidates.value[0].content.value.parts.value
  {
    match r.candidates
    case None => []
    case Some(cs) =>
      if |cs| == 0 then []
      else match cs[0].content
        case None => []
        case Some(c) => match c.parts
          case None => []
          case Some(ps) => ps
  }
}
