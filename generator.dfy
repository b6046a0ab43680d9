/**
 * The component state behind the generate button and its click handler
 * `handleGenerateImage` (App.tsx:29-123, 170-172). The handler's awaited
 * steps are given as inputs: whether the client could be created, what
 * each file read produced, and what the model call produced.
 */
module Generator {
  import opened Wrappers
  import opened DataUrls
  import opened Prompt
  import opened GenAi
  import opened Interpreter

  /** An uploaded file; the handler reads only its MIME type, the rest reaches it through the reader. */
  datatype ImageFile = ImageFile(mimeType: string)

  /**
   * How an awaited step ends: with a value, or by throwing an error whose
   * `message` may be `undefined` (`None`), as for the event a failed file
   * read rejects with.
   */
  datatype Awaited<T> = Resolved(value: T) | Rejected(message: Option<string>)

  /** Whether `new GoogleGenAI(...)` returns or throws. */
  datatype ClientSetup = ClientReady | ClientThrows(message: Option<string>)

  const MissingImagesMessage := "Vui lòng tải lên cả ảnh người mẫu và ảnh sản phẩm."
  const LoaderText := "AI đang sáng tạo..."
  const ErrorPrefix := "Đã xảy ra lỗi: "

  /** The catch block's text: `${e.message}` renders an undefined message as "undefined". */
  function ThrownMessage(message: Option<string>): string
  {
    ErrorPrefix + (if message.Some? then message.value else "undefined")
  }

  /** The message of the first awaited step that throws, in the handler's order; `None` when none does. */
  function FirstThrow(client: ClientSetup, modelRead: Awaited<string>, productRead: Awaited<string>,
                      call: Awaited<Response>): Option<Option<string>>
  {
    if client.ClientThrows? then Some(client.message)
    else if modelRead.Rejected? then Some(modelRead.message)
    else if productRead.Rejected? then Some(productRead.message)
    else if call.Rejected? then Some(call.message)
    else None
  }

  /** The request the handler sends, if it gets that far. */
  function SentRequest(modelImage: ImageFile, productImage: ImageFile, options: Options,
                       client: ClientSetup, modelRead: Awaited<string>, productRead: Awaited<string>): Option<Request>
  {
    if client.ClientThrows? || modelRead.Rejected? || productRead.Rejected? then None
    else Some(BuildRequest(modelImage.mimeType, Base64Payload(modelRead.value),
                           productImage.mimeType, Base64Payload(productRead.value), ComposePrompt(options)))
  }

  /** What an attempt that passed the guard shows at its end. */
  function AttemptResult(client: ClientSetup, modelRead: Awaited<string>, productRead: Awaited<string>,
                         call: Awaited<Response>): GenerationResult
  {
    match FirstThrow(client, modelRead, productRead, call)
    case Some(message) => Failed(ThrownMessage(message))
    case None => Interpret(call.value)
  }

  /**
   * When the client is created and both reads return data URLs (whose MIME
   * type and payload hold no comma), the request is exactly the model
   * image, then the product image, each with its file's MIME type and its
   * reader's base64 payload, then the prompt.
   */
  lemma RequestCarriesUploads(modelImage: ImageFile, productImage: ImageFile, options: Options,
                              modelMime: string, modelData: string, productMime: string, productData: string)
    requires ',' !in modelMime && ',' !in modelData && ',' !in productMime && ',' !in productData
    ensures var sent := SentRequest(modelImage, productImage, options, ClientReady,
                                    Resolved(DataUrl(modelMime, modelData)), Resolved(DataUrl(productMime, productData)));
      sent.Some? &&
      sent.value.model == ImageModel &&
      sent.value.responseModalities == [Image, Text] &&
      sent.value.parts == [InlinePart(modelImage.mimeType, Some(modelData)),
                           InlinePart(productImage.mimeType, Some(productData)),
                           TextPart(ComposePrompt(options))]
  {
    PayloadOfDataUrl(modelMime, modelData);
    PayloadOfDataUrl(productMime, productData);
  }

  /**
   * An attempt shows an image exactly when every awaited step returned
   * and the response has a part with inline data; the image is that of
   * the first such part. Otherwise, if a step throws, the first one to
   * throw (client, model read, product read, call) sets the error to the
   * fixed prefix followed by its message, or by "undefined".
   */
  lemma AttemptOutcome(client: ClientSetup, modelRead: Awaited<string>, productRead: Awaited<string>,
                       call: Awaited<Response>)
    ensures var r := AttemptResult(client, modelRead, productRead, call);
      r.Shown? <==> (client.ClientReady? && modelRead.Resolved? && productRead.Resolved? && call.Resolved? &&
                     exists j :: 0 <= j < |ResponseParts(call.value)| && ResponseParts(call.value)[j].inlineData.Some?)
    ensures var r := AttemptResult(client, modelRead, productRead, call);
      r.Shown? ==> call.Resolved? && Some(r.dataUrl) == FirstImage(ResponseParts(call.value))
    ensures var r, t := AttemptResult(client, modelRead, productRead, call), FirstThrow(client, modelRead, productRead, call);
      t.Some? ==> r == Failed(ErrorPrefix + (if t.value.Some? then t.value.value else "undefined"))
  {
    if FirstThrow(client, modelRead, productRead, call).None? {
      InterpretFails(call.value);
    }
  }

  class App {
    var modelImage: Option<ImageFile>
    var productImage: Option<ImageFile>
    var options: Options
    var isLoading: bool
    var loaderMessage: string
    var generatedImage: Option<string>
    var error: Option<string>

    /** The component's initial state (App.tsx:31-44). */
    constructor ()
      ensures modelImage == None && productImage == None && options == Options("", "", "", "")
      ensures !isLoading && loaderMessage == LoaderText && generatedImage == None && error == None
    {
      modelImage, productImage := None, None;
      options := Options("", "", "", "");
      isLoading, loaderMessage := false, LoaderText;
      generatedImage, error := None, None;
    }

    /** The generate button is enabled (App.tsx:172). */
    predicate CanGenerate()
      reads this
    {
      !isLoading && modelImage.Some? && productImage.Some?
    }

    /** The handler up to its first await: the guard, then the reset of the previous attempt. */
    method Begin() returns (started: bool)
      modifies this`isLoading, this`loaderMessage, this`error, this`generatedImage
      ensures started <==> modelImage.Some? && productImage.Some?
      ensures !started ==> error == Some(MissingImagesMessage) && isLoading == old(isLoading) &&
                           loaderMessage == old(loaderMessage) && generatedImage == old(generatedImage)
      ensures started ==> isLoading && loaderMessage == LoaderText && error == None && generatedImage == None
      ensures started ==> !CanGenerate()
    {
      if modelImage.None? || productImage.None? {
        error := Some(MissingImagesMessage);
        return false;
      }
      isLoading := true;
      loaderMessage := LoaderText;
      error := None;
      generatedImage := None;
      started := true;
    }

    /**
     * The body of the `try` block: each awaited step either returns or
     * throws; a response without inline data sets the error itself.
     */
    method TryBlock(client: ClientSetup, modelRead: Awaited<string>, productRead: Awaited<string>,
                    call: Awaited<Response>) returns (sent: Option<Request>, thrown: Option<Option<string>>)
      requires modelImage.Some? && productImage.Some? && generatedImage == None && error == None
      modifies this`generatedImage, this`error
      ensures sent == SentRequest(modelImage.value, productImage.value, options, client, modelRead, productRead)
      ensures thrown == FirstThrow(client, modelRead, productRead, call)
      ensures thrown.Some? ==> generatedImage == None && error == None
      ensures thrown.None? ==>
        var r := Interpret(call.value);
        generatedImage == (if r.Shown? then Some(r.dataUrl) else None) &&
        error == (if r.Failed? then Some(r.message) else None)
    {
      sent, thrown := None, None;
      if client.ClientThrows? {
        thrown := Some(client.message);
        return;
      }
      if modelRead.Rejected? {
        thrown := Some(modelRead.message);
        return;
      }
      var modelImageBase64 := Base64Payload(modelRead.value);
      if productRead.Rejected? {
        thrown := Some(productRead.message);
        return;
      }
      var productImageBase64 := Base64Payload(productRead.value);
      var prompt := ComposePrompt(options);
      sent := Some(BuildRequest(modelImage.value.mimeType, modelImageBase64,
                                productImage.value.mimeType, productImageBase64, prompt));
      if call.Rejected? {
        thrown := Some(call.message);
        return;
      }
      var response := call.value;
      var parts := ResponseParts(response);
      var foundImage := false;
      for i := 0 to |parts|
        invariant forall j :: 0 <= j < i ==> parts[j].inlineData.None?
        invariant !foundImage && generatedImage == None
      {
        if parts[i].inlineData.Some? {
          var blob := parts[i].inlineData.value;
          var imageUrl := DataUrl(blob.mimeType, blob.data);
          generatedImage := Some(imageUrl);
          foundImage := true;
          FirstImageAt(parts, i);
          break;
        }
      }
      if !foundImage {
        NoFirstImage(parts);
        error := Some(NoImageMessage(response.text));
      }
    }

    /** The handler from its first await on: the `try` block, its `catch` and its `finally`. */
    method Complete(client: ClientSetup, modelRead: Awaited<string>, productRead: Awaited<string>,
                    call: Awaited<Response>) returns (sent: Option<Request>)
      requires modelImage.Some? && productImage.Some? && generatedImage == None && error == None
      modifies this`generatedImage, this`error, this`isLoading
      ensures sent == SentRequest(modelImage.value, productImage.value, options, client, modelRead, productRead)
      ensures !isLoading
      ensures var r := AttemptResult(client, modelRead, productRead, call);
        generatedImage == (if r.Shown? then Some(r.dataUrl) else None) &&
        error == (if r.Failed? then Some(r.message) else None)
      ensures generatedImage.Some? != error.Some?
    {
      var thrown;
      sent, thrown := TryBlock(client, modelRead, productRead, call);
      if thrown.Some? {
        error := Some(ThrownMessage(thrown.value));
      }
      isLoading := false;
    }

    /** `handleGenerateImage` run to completion; `sent` is the request issued to the model, if any. */
    method Generate(client: ClientSetup, modelRead: Awaited<string>, productRead: Awaited<string>,
                    call: Awaited<Response>) returns (sent: Option<Request>)
      modifies this`generatedImage, this`error, this`isLoading, this`loaderMessage
      ensures modelImage == old(modelImage) && productImage == old(productImage) && options == old(options)
      ensures old(modelImage).None? || old(productImage).None? ==>
        sent == None && error == Some(MissingImagesMessage) && isLoading == old(isLoading) &&
        loaderMessage == old(loaderMessage) && generatedImage == old(generatedImage)
      ensures old(modelImage).Some? && old(productImage).Some? ==>
        sent == SentRequest(modelImage.value, productImage.value, options, client, modelRead, productRead) &&
        !isLoading && loaderMessage == LoaderText &&
        var r := AttemptResult(client, modelRead, productRead, call);
        generatedImage == (if r.Shown? then Some(r.dataUrl) else None) &&
        error == (if r.Failed? then Some(r.message) else None)
    {
      var started := Begin();
      sent := None;
      if started {
        sent := Complete(client, modelRead, productRead, call);
      }
    }

    /**
     * A click on the generate button: nothing happens while it is disabled,
     * so no second request is issued while an attempt is in flight.
     */
    method Click(client: ClientSetup, modelRead: Awaited<string>, productRead: Awaited<string>,
                 call: Awaited<Response>) returns (sent: Option<Request>)
      modifies this`generatedImage, this`error, this`isLoading, this`loaderMessage
      ensures !old(CanGenerate()) ==> sent == None && unchanged(this)
      ensures old(CanGenerate()) ==>
        sent == SentRequest(modelImage.value, productImage.value, options, client, modelRead, productRead) &&
        sent.Some? == (client.ClientReady? && modelRead.Resolved? && productRead.Resolved?) &&
        !isLoading && loaderMessage == LoaderText && generatedImage.Some? != error.Some? &&
        var r := AttemptResult(client, modelRead, productRead, call);
        generatedImage == (if r.Shown? then Some(r.dataUrl) else None) &&
        error == (if r.Failed? then Some(r.message) else None)
    {
      sent := None;
      if CanGenerate() {
        sent := Generate(client, modelRead, productRead, call);
      }
    }
  }
}
